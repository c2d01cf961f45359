/**
 The working-orders drain: which row of a basket wins, which rows are stale, and in what
 order reports are published and venue ids bound.
 */
module Drain {
  import opened Basics

  // ---------------------------------------------------------------- freshest row per key

  datatype Keyed = Keyed(key: string, ts: int)

  /** No earlier row has the key of row `i`. */
  ghost predicate IsFirst(rows: seq<Keyed>, i: nat)
    requires i < |rows|
  {
    forall k :: 0 <= k < i ==> rows[k].key != rows[i].key
  }

  /** Row `i` is the last to arrive among the rows of its key with the highest time, up to row `n`. */
  ghost predicate IsFreshest(rows: seq<Keyed>, i: nat, n: nat)
    requires i < n <= |rows|
  {
    forall k :: 0 <= k < n && rows[k].key == rows[i].key ==>
                  rows[k].ts < rows[i].ts || (rows[k].ts == rows[i].ts && k <= i)
  }

  /** `firsts` lists the first appearances among the first `n` rows, ascending. */
  ghost predicate ListsFirsts(rows: seq<Keyed>, firsts: seq<nat>, n: nat)
    requires n <= |rows|
  {
    && (forall j :: 0 <= j < |firsts| ==> firsts[j] < n && IsFirst(rows, firsts[j]))
    && (forall i, j :: 0 <= i < j < |firsts| ==> firsts[i] < firsts[j])
    && (forall k :: 0 <= k < n && IsFirst(rows, k) ==> k in firsts)
  }

  /** One index per key, in order of first appearance, each the freshest of its key. */
  ghost predicate PicksFreshest(rows: seq<Keyed>, firsts: seq<nat>, out: seq<nat>) {
    && ListsFirsts(rows, firsts, |rows|)
    && |out| == |firsts|
    && forall j :: 0 <= j < |out| ==>
                     && out[j] < |rows|
                     && rows[out[j]].key == rows[firsts[j]].key
                     && IsFreshest(rows, out[j], |rows|)
  }

  ghost predicate Picks(rows: seq<Keyed>, out: seq<nat>) {
    exists firsts :: PicksFreshest(rows, firsts, out)
  }

  /** Every key so far has its freshest row among the first `n`. */
  ghost predicate Winners(rows: seq<Keyed>, winner: map<string, nat>, n: nat)
    requires n <= |rows|
  {
    && (forall k :: 0 <= k < n ==> rows[k].key in winner)
    && (forall key :: key in winner ==>
                        winner[key] < n && rows[winner[key]].key == key && IsFreshest(rows, winner[key], n))
  }

  method FreshestPerKey(rows: seq<Keyed>) returns (out: seq<nat>)
    ensures Picks(rows, out)
    ensures forall j :: 0 <= j < |out| ==> out[j] < |rows|
  {
    var order: seq<string> := [];
    var winner: map<string, nat> := map[];
    ghost var firsts: seq<nat> := [];
    var i := 0;
    while i < |rows|
      invariant 0 <= i <= |rows|
      invariant Progress(rows, firsts, order, winner, i)
    {
      var key := rows[i].key;
      RowTaken(rows, firsts, order, winner, i);
      if key !in winner {
        order := order + [key];
        winner := winner[key := i];
        firsts := firsts + [i];
      } else if rows[i].ts >= rows[winner[key]].ts {
        winner := winner[key := i];
      }
      i := i + 1;
    }
    out := Picked(order, winner);
    PickedFreshest(rows, firsts, order, winner);
  }

  function Picked(order: seq<string>, winner: map<string, nat>): seq<nat> {
    if order == [] then []
    else Picked(order[..|order| - 1], winner) +
         (if order[|order| - 1] in winner then [winner[order[|order| - 1]]] else [])
  }

  lemma {:induction false} PickedAt(order: seq<string>, winner: map<string, nat>)
    requires forall j :: 0 <= j < |order| ==> order[j] in winner
    ensures |Picked(order, winner)| == |order|
    ensures forall j :: 0 <= j < |order| ==> Picked(order, winner)[j] == winner[order[j]]
  {
    if order != [] {
      PickedAt(order[..|order| - 1], winner);
    }
  }

  lemma {:induction false} PickedFreshest(rows: seq<Keyed>, firsts: seq<nat>, order: seq<string>,
      winner: map<string, nat>)
    requires ListsFirsts(rows, firsts, |rows|) && KeysOfFirsts(rows, firsts, order) && Winners(rows, winner, |rows|)
    ensures PicksFreshest(rows, firsts, Picked(order, winner))
  {
    forall j | 0 <= j < |order|
      ensures order[j] in winner
    {
      assert rows[firsts[j]].key in winner;
    }
    PickedAt(order, winner);
  }

  ghost predicate KeysOfFirsts(rows: seq<Keyed>, firsts: seq<nat>, order: seq<string>) {
    |order| == |firsts| && forall j :: 0 <= j < |order| ==> firsts[j] < |rows| && order[j] == rows[firsts[j]].key
  }

  ghost predicate Progress(rows: seq<Keyed>, firsts: seq<nat>, order: seq<string>, winner: map<string, nat>, n: nat)
    requires n <= |rows|
  {
    ListsFirsts(rows, firsts, n) && KeysOfFirsts(rows, firsts, order) && Winners(rows, winner, n)
  }

  /** Row `i` opens its key, replaces its key's winner, or changes nothing. */
  lemma {:induction false} RowTaken(rows: seq<Keyed>, firsts: seq<nat>, order: seq<string>,
      winner: map<string, nat>, i: nat)
    requires i < |rows| && Progress(rows, firsts, order, winner, i)
    ensures var key := rows[i].key;
            if key !in winner then Progress(rows, firsts + [i], order + [key], winner[key := i], i + 1)
            else if rows[i].ts >= rows[winner[key]].ts then Progress(rows, firsts, order, winner[key := i], i + 1)
            else Progress(rows, firsts, order, winner, i + 1)
  {
    var key := rows[i].key;
    if key !in winner {
      NextWinner(rows, winner, i);
      NextFirst(rows, firsts, i);
      assert KeysOfFirsts(rows, firsts + [i], order + [key]);
    } else {
      NotFirst(rows, firsts, winner[key], i);
      if rows[i].ts >= rows[winner[key]].ts {
        NextWinner(rows, winner, i);
      } else {
        OldWinner(rows, winner, i);
      }
    }
  }

  lemma {:induction false} NextWinner(rows: seq<Keyed>, winner: map<string, nat>, i: nat)
    requires i < |rows| && Winners(rows, winner, i)
    requires rows[i].key in winner ==> rows[i].ts >= rows[winner[rows[i].key]].ts
    ensures Winners(rows, winner[rows[i].key := i], i + 1)
  {
  }

  lemma {:induction false} OldWinner(rows: seq<Keyed>, winner: map<string, nat>, i: nat)
    requires i < |rows| && Winners(rows, winner, i)
    requires rows[i].key in winner && rows[i].ts < rows[winner[rows[i].key]].ts
    ensures Winners(rows, winner, i + 1)
  {
  }

  lemma {:induction false} NextFirst(rows: seq<Keyed>, firsts: seq<nat>, i: nat)
    requires i < |rows| && ListsFirsts(rows, firsts, i)
    requires forall k :: 0 <= k < i ==> rows[k].key != rows[i].key
    ensures ListsFirsts(rows, firsts + [i], i + 1)
  {
    assert i in firsts + [i];
  }

  lemma {:induction false} NotFirst(rows: seq<Keyed>, firsts: seq<nat>, earlier: nat, i: nat)
    requires earlier < i < |rows| && ListsFirsts(rows, firsts, i)
    requires rows[earlier].key == rows[i].key
    ensures ListsFirsts(rows, firsts, i + 1)
  {
    assert !IsFirst(rows, i);
  }

  /** The conditions leave one answer only. */
  lemma {:induction false} FreshestUnique(rows: seq<Keyed>, a: seq<nat>, b: seq<nat>)
    requires Picks(rows, a) && Picks(rows, b)
    ensures a == b
  {
    var f :| PicksFreshest(rows, f, a);
    var g :| PicksFreshest(rows, g, b);
    PickedUnique(rows, f, a, g, b);
  }

  lemma {:induction false} PickedUnique(rows: seq<Keyed>, f: seq<nat>, a: seq<nat>, g: seq<nat>, b: seq<nat>)
    requires PicksFreshest(rows, f, a) && PicksFreshest(rows, g, b)
    ensures a == b
  {
    FirstsUnique(rows, f, g);
    forall j | 0 <= j < |a|
      ensures a[j] == b[j]
    {
      assert rows[a[j]].key == rows[b[j]].key;
    }
  }

  lemma {:induction false} FirstsUnique(rows: seq<Keyed>, f: seq<nat>, g: seq<nat>)
    requires ListsFirsts(rows, f, |rows|) && ListsFirsts(rows, g, |rows|)
    ensures f == g
  {
    if f != [] {
      var last := Position(rows, f, g, |f| - 1);
    }
    if g != [] {
      var last := Position(rows, g, f, |g| - 1);
    }
    forall n | 0 <= n < |f|
      ensures f[n] == g[n]
    {
      var j := Position(rows, f, g, n);
      var k := Position(rows, g, f, n);
    }
  }

  /** The `n`-th first appearance stands no earlier in the other list. */
  lemma {:induction false} Position(rows: seq<Keyed>, f: seq<nat>, g: seq<nat>, n: nat) returns (j: nat)
    requires ListsFirsts(rows, f, |rows|) && ListsFirsts(rows, g, |rows|) && n < |f|
    ensures n <= j < |g| && g[j] == f[n] && g[n] <= f[n]
  {
    assert IsFirst(rows, f[n]) && f[n] in g;
    j :| 0 <= j < |g| && g[j] == f[n];
    if n > 0 {
      var k := Position(rows, f, g, n - 1);
      assert g[k] < g[j];
      assert j > k;
    }
  }

  // ---------------------------------------------------------------- stale rows

  datatype StaleReason = ClosedLocally | NonTerminalForClosed | LiveStreamAhead

  function Stale(orderClosed: bool, liveAuthoritative: bool, nonTerminal: bool, rowTs: int,
      orderTs: int): Option<StaleReason> {
    if orderClosed then
      if liveAuthoritative then Some(ClosedLocally)
      else if nonTerminal then Some(NonTerminalForClosed)
      else None
    else if liveAuthoritative && rowTs != 0 && orderTs > rowTs then Some(LiveStreamAhead)
    else None
  }

  // ---------------------------------------------------------------- rows and effects

  /**
   A usable drain row. `tag` is the user tag it carries, `client` is the order the host resolves
   it to, `publishes` whether the engine takes its report.
   */
  datatype Row = Row(basket: string, ts: int, tag: string, client: Option<string>, nonTerminal: bool,
      bindable: bool, publishes: bool)

  datatype Tracked = Tracked(closed: bool, tsLast: int)

  type Cache = map<string, Tracked>

  function RowStaleReason(cache: Cache, row: Row, liveAuthoritative: bool): Option<StaleReason> {
    if row.client.None? || row.client.value !in cache then None
    else
      var order := cache[row.client.value];
      var needsAge := !order.closed && liveAuthoritative && row.ts != 0;
      Stale(order.closed, liveAuthoritative, row.nonTerminal, row.ts, if needsAge then order.tsLast else 0)
  }

  /** At the barrier every row the recon would hold back is held back too, and more. */
  lemma {:induction false} BarrierIsStricter(cache: Cache, row: Row)
    ensures RowStaleReason(cache, row, false).Some? ==> RowStaleReason(cache, row, true).Some?
    ensures RowStaleReason(cache, row, true).None? <==>
            row.client.None? || row.client.value !in cache
            || (!cache[row.client.value].closed && (row.ts == 0 || cache[row.client.value].tsLast <= row.ts))
    ensures RowStaleReason(cache, row, false).Some? <==>
            row.client.Some? && row.client.value in cache && cache[row.client.value].closed && row.nonTerminal
    ensures RowStaleReason(cache, row, false).Some? ==> RowStaleReason(cache, row, false).value == NonTerminalForClosed
    ensures RowStaleReason(cache, row, true).Some? ==>
              RowStaleReason(cache, row, true).value
              == if cache[row.client.value].closed then ClosedLocally else LiveStreamAhead
  {
  }

  /** A row is forwarded at the barrier unless its order is tracked and closed, or tracked and ahead of a dated row. */
  lemma {:induction false} ForwardedExactlyWhen(cache: Cache, row: Row)
    ensures Forwarded(cache, row) <==>
            row.client.Some? && row.client.value in cache ==>
              !cache[row.client.value].closed && (row.ts == 0 || cache[row.client.value].tsLast <= row.ts)
  {
  }

  datatype Effect = Published(index: nat) | Refused(index: nat) | Bound(client: string, basket: string, index: nat)

  ghost predicate Forwarded(cache: Cache, row: Row) {
    RowStaleReason(cache, row, true).None?
  }

  datatype Outcome = Outcome(log: seq<Effect>, bound: map<string, string>, ok: bool)

  ghost predicate Binds(cache: Cache, row: Row, bound: map<string, string>) {
    row.client.Some? && row.bindable && row.client.value in cache && row.client.value !in bound
  }

  /** What row `i` adds. */
  ghost function Next(cache: Cache, row: Row, i: nat, before: Outcome): Outcome {
    if !before.ok || !Forwarded(cache, row) then before
    else if !row.publishes then Outcome(before.log + [Refused(i)], before.bound, false)
    else if Binds(cache, row, before.bound) then
      Outcome(before.log + [Published(i), Bound(row.client.value, row.basket, i)],
              before.bound[row.client.value := row.basket], true)
    else Outcome(before.log + [Published(i)], before.bound, true)
  }

  /** The drain after its first `n` rows. */
  ghost function After(cache: Cache, rows: seq<Row>, bound: map<string, string>, n: nat): Outcome
    requires n <= |rows|
  {
    if n == 0 then Outcome([], bound, true) else Next(cache, rows[n - 1], n - 1, After(cache, rows, bound, n - 1))
  }

  /** The drain reaches row `i`: every forwarded row before it published. */
  ghost predicate Reached(cache: Cache, rows: seq<Row>, i: nat)
    requires i <= |rows|
  {
    forall k :: 0 <= k < i && Forwarded(cache, rows[k]) ==> rows[k].publishes
  }

  lemma {:induction false} OkExactlyWhen(cache: Cache, rows: seq<Row>, bound: map<string, string>, n: nat)
    requires n <= |rows|
    ensures After(cache, rows, bound, n).ok <==> Reached(cache, rows, n)
  {
    if n > 0 {
      OkExactlyWhen(cache, rows, bound, n - 1);
    }
  }

  datatype Resolution = FromCache | NotFound | FromRow(index: nat)

  ghost predicate Answers(row: Row, client: string) {
    row.tag == client && row.bindable
  }

  /** Row `i` answers for the order and no other answer is newer; the last to arrive wins a tie. */
  ghost predicate NewestAnswer(rows: seq<Row>, client: string, i: nat) {
    && i < |rows| && Answers(rows[i], client)
    && forall k :: 0 <= k < |rows| && Answers(rows[k], client) ==>
                     rows[k].ts < rows[i].ts || (rows[k].ts == rows[i].ts && k <= i)
  }

  class DrainHost {
    const cache: Cache
    var bound: map<string, string>
    var log: seq<Effect>

    constructor (cache: Cache, bound: map<string, string>)
      ensures this.cache == cache && this.bound == bound && log == []
    {
      this.cache := cache;
      this.bound := bound;
      this.log := [];
    }

    /** The freshest row of each basket, then the effects of those rows in order. */
    method ApplyDrainRows(candidates: seq<Row>) returns (ok: bool, ghost rows: seq<Row>)
      modifies this
      ensures forall i, j :: 0 <= i < j < |rows| ==> rows[i].basket != rows[j].basket
      ensures forall j :: 0 <= j < |rows| ==> Wins(candidates, rows[j])
      ensures forall k :: 0 <= k < |candidates| ==> HasBasket(rows, candidates[k].basket)
      ensures AreWinners(candidates, rows)
      ensures Outcome(log, bound, ok)
          == After(cache, rows, old(bound), |rows|).(log := old(log) + After(cache, rows, old(bound), |rows|).log)
    {
      var winners := LatestDrainRows(candidates);
      rows := winners;
      ok := ApplyRows(winners);
    }

    /**
     Recover the venue id of one in-flight order. What the live stream did during the drain
     wins; otherwise the newest strict row that carries the order's tag is bound, once.
     */
    method ResolveInflight(client: string, closed: bool, rows: seq<Row>) returns (r: Resolution)
      modifies this`bound
      ensures r.FromCache? <==> client in old(bound) || closed
      ensures r.NotFound? ==> forall k :: 0 <= k < |rows| ==> !Answers(rows[k], client)
      ensures r.FromRow? ==> NewestAnswer(rows, client, r.index)
      ensures bound == if r.FromRow? && r.index < |rows| then old(bound)[client := rows[r.index].basket] else old(bound)
    {
      if client in bound || closed {
        return FromCache;
      }
      var best: Option<nat> := None;
      for i := 0 to |rows|
        invariant best.None? ==> forall k :: 0 <= k < i ==> !Answers(rows[k], client)
        invariant best.Some? ==> best.value < i && NewestAnswer(rows[..i], client, best.value)
      {
        if rows[i].tag == client && rows[i].bindable && (best.None? || rows[i].ts >= rows[best.value].ts) {
          best := Some(i);
        }
      }
      if best.None? {
        return NotFound;
      }
      assert rows[..|rows|] == rows;
      bound := bound[client := rows[best.value].basket];
      return FromRow(best.value);
    }

    /** Publish, then bind; the first report that cannot be published aborts the barrier. */
    method ApplyRows(rows: seq<Row>) returns (ok: bool)
      modifies this
      ensures Outcome(log, bound, ok)
          == After(cache, rows, old(bound), |rows|).(log := old(log) + After(cache, rows, old(bound), |rows|).log)
    {
      var i := 0;
      while i < |rows|
        invariant 0 <= i <= |rows|
        invariant var a := After(cache, rows, old(bound), i); a.ok && bound == a.bound && log == old(log) + a.log
      {
        var row := rows[i];
        if RowStaleReason(cache, row, true).None? {
          if !row.publishes {
            log := log + [Refused(i)];
            AbortStays(cache, rows, old(bound), i + 1);
            return false;
          }
          log := log + [Published(i)];
          if row.client.Some? && row.bindable && row.client.value in cache && row.client.value !in bound {
            bound := bound[row.client.value := row.basket];
            log := log + [Bound(row.client.value, row.basket, i)];
          }
        }
        i := i + 1;
      }
      return true;
    }
  }

  lemma {:induction false} AbortStays(cache: Cache, rows: seq<Row>, bound: map<string, string>, n: nat)
    requires n <= |rows| && !After(cache, rows, bound, n).ok
    ensures After(cache, rows, bound, |rows|) == After(cache, rows, bound, n)
    decreases |rows| - n
  {
    if n < |rows| {
      AbortStays(cache, rows, bound, n + 1);
    }
  }

  // ---------------------------------------------------------------- what the log says

  /** The reports published, and only those: forwarded rows up to the first one refused. */
  lemma {:induction false} PublishedExactlyWhen(cache: Cache, rows: seq<Row>, bound: map<string, string>, n: nat,
      i: nat)
    requires n <= |rows| && i < |rows|
    ensures Published(i) in After(cache, rows, bound, n).log
            <==> i < n && Forwarded(cache, rows[i]) && Reached(cache, rows, i + 1)
    ensures Refused(i) in After(cache, rows, bound, n).log
            <==> i < n && Forwarded(cache, rows[i]) && Reached(cache, rows, i) && !rows[i].publishes
  {
    if n > 0 {
      PublishedExactlyWhen(cache, rows, bound, n - 1, i);
      OkExactlyWhen(cache, rows, bound, n - 1);
      assert i == n - 1 ==> (Reached(cache, rows, i + 1)
          <==> Reached(cache, rows, i) && (Forwarded(cache, rows[i]) ==> rows[i].publishes));
    }
  }

  /** Indexes never go back, a bind follows its own publish, a refusal is the last effect. */
  ghost predicate LogOrdered(log: seq<Effect>, n: nat) {
    && (forall p :: 0 <= p < |log| ==> log[p].index < n)
    && (forall p, q :: 0 <= p < q < |log| ==> log[p].index < log[q].index || (p + 1 == q && log[q].Bound?))
    && (forall p :: 0 <= p < |log| && log[p].Bound? ==> p > 0 && log[p - 1] == Published(log[p].index))
    && (forall p :: 0 <= p < |log| - 1 ==> !log[p].Refused?)
  }

  ghost predicate Aborted(log: seq<Effect>) {
    log != [] && log[|log| - 1].Refused?
  }

  lemma {:induction false} LogIsOrdered(cache: Cache, rows: seq<Row>, bound: map<string, string>, n: nat)
    requires n <= |rows|
    ensures LogOrdered(After(cache, rows, bound, n).log, n)
    ensures After(cache, rows, bound, n).ok <==> !Aborted(After(cache, rows, bound, n).log)
  {
    if n > 0 {
      LogIsOrdered(cache, rows, bound, n - 1);
      NextOrdered(cache, rows[n - 1], n - 1, After(cache, rows, bound, n - 1));
    }
  }

  lemma {:induction false} NextOrdered(cache: Cache, row: Row, i: nat, before: Outcome)
    requires LogOrdered(before.log, i) && (before.ok <==> !Aborted(before.log))
    ensures LogOrdered(Next(cache, row, i, before).log, i + 1)
    ensures Next(cache, row, i, before).ok <==> !Aborted(Next(cache, row, i, before).log)
  {
    if before.ok && Forwarded(cache, row) {
      if !row.publishes {
        AppendOrdered(before.log, Refused(i), i);
      } else if Binds(cache, row, before.bound) {
        AppendBound(before.log, row.client.value, row.basket, i);
      } else {
        AppendOrdered(before.log, Published(i), i);
      }
    } else {
      LogWidens(before.log, i);
    }
  }

  lemma {:induction false} LogWidens(log: seq<Effect>, n: nat)
    requires LogOrdered(log, n)
    ensures LogOrdered(log, n + 1)
  {
  }

  lemma {:induction false} AppendOrdered(log: seq<Effect>, e: Effect, n: nat)
    requires LogOrdered(log, n) && !Aborted(log) && e.index == n && !e.Bound?
    ensures LogOrdered(log + [e], n + 1)
    ensures Aborted(log + [e]) <==> e.Refused?
  {
  }

  lemma {:induction false} AppendBound(log: seq<Effect>, client: string, basket: string, n: nat)
    requires LogOrdered(log, n) && !Aborted(log)
    ensures LogOrdered(log + [Published(n), Bound(client, basket, n)], n + 1)
    ensures !Aborted(log + [Published(n), Bound(client, basket, n)])
  {
  }

  /** Row `i` is the one that binds `c`, when nothing before it has. */
  ghost predicate Candidate(cache: Cache, rows: seq<Row>, c: string, i: nat)
    requires i < |rows|
  {
    && rows[i].client == Some(c) && c in cache
    && rows[i].bindable
    && Forwarded(cache, rows[i])
    && Reached(cache, rows, i + 1)
  }

  /** What is bound at the end: the old bindings, and each new client to its first candidate row. */
  lemma {:induction false} BoundExactlyWhen(cache: Cache, rows: seq<Row>, bound: map<string, string>, n: nat, c: string)
    requires n <= |rows|
    ensures c in bound ==> c in After(cache, rows, bound, n).bound && After(cache, rows, bound, n).bound[c] == bound[c]
    ensures c !in bound
        ==> (c in After(cache, rows, bound, n).bound <==> exists i :: 0 <= i < n && Candidate(cache, rows, c, i))
    ensures forall i :: c !in bound && 0 <= i < n && Candidate(cache, rows, c, i)
                        && (forall k :: 0 <= k < i ==> !Candidate(cache, rows, c, k))
                        ==> After(cache, rows, bound, n).bound[c] == rows[i].basket
  {
    if n > 0 {
      BoundExactlyWhen(cache, rows, bound, n - 1, c);
      OkExactlyWhen(cache, rows, bound, n - 1);
      OkExactlyWhen(cache, rows, bound, n);
      var before, after := After(cache, rows, bound, n - 1), After(cache, rows, bound, n);
      if Candidate(cache, rows, c, n - 1) {
        assert before.ok && after.ok;
        assert c in after.bound;
      } else {
        assert c !in before.bound ==> c !in after.bound;
      }
    }
  }

  /** Every bind in the log gave an unbound client the basket it still has. */
  ghost predicate BindsFresh(log: seq<Effect>, was: map<string, string>, bound: map<string, string>) {
    forall p :: 0 <= p < |log| && log[p].Bound? ==>
                  && log[p].client !in was
                  && log[p].client in bound
                  && bound[log[p].client] == log[p].basket
  }

  ghost predicate BindsOnce(log: seq<Effect>) {
    forall p, q :: 0 <= p < q < |log| && log[p].Bound? && log[q].Bound? ==> log[p].client != log[q].client
  }

  /** A client is bound at most once, and was unbound before. */
  lemma {:induction false} BoundOnce(cache: Cache, rows: seq<Row>, bound: map<string, string>, n: nat)
    requires n <= |rows|
    ensures BindsFresh(After(cache, rows, bound, n).log, bound, After(cache, rows, bound, n).bound)
    ensures BindsOnce(After(cache, rows, bound, n).log)
  {
    if n > 0 {
      BoundOnce(cache, rows, bound, n - 1);
      var before := After(cache, rows, bound, n - 1);
      var row := rows[n - 1];
      if Binds(cache, row, before.bound) {
        BoundExactlyWhen(cache, rows, bound, n - 1, row.client.value);
        AppendBind(before.log, bound, before.bound, row.client.value, row.basket, n - 1);
      }
    }
  }

  lemma {:induction false} AppendBind(log: seq<Effect>, was: map<string, string>, bound: map<string, string>,
      client: string, basket: string, i: nat)
    requires BindsFresh(log, was, bound) && BindsOnce(log) && client !in bound && client !in was
    ensures BindsFresh(log + [Published(i), Bound(client, basket, i)], was, bound[client := basket])
    ensures BindsOnce(log + [Published(i), Bound(client, basket, i)])
  {
  }

  // ---------------------------------------------------------------- the whole drain

  ghost predicate HasBasket(rows: seq<Row>, basket: string) {
    exists j :: 0 <= j < |rows| && rows[j].basket == basket
  }

  /** `rows` are the winners, in the order in which their baskets first appear. */
  ghost predicate AreWinners(candidates: seq<Row>, rows: seq<Row>) {
    exists out :: Picks(KeysOf(candidates), out) && TakenAt(candidates, out, rows)
  }

  ghost predicate TakenAt(candidates: seq<Row>, out: seq<nat>, rows: seq<Row>) {
    |rows| == |out| && forall i :: 0 <= i < |out| ==> out[i] < |candidates| && rows[i] == candidates[out[i]]
  }

  /** One winner per basket, as the drain applies them. */
  method LatestDrainRows(candidates: seq<Row>) returns (rows: seq<Row>)
    ensures forall i, j :: 0 <= i < j < |rows| ==> rows[i].basket != rows[j].basket
    ensures forall j :: 0 <= j < |rows| ==> Wins(candidates, rows[j])
    ensures forall k :: 0 <= k < |candidates| ==> HasBasket(rows, candidates[k].basket)
    ensures AreWinners(candidates, rows)
  {
    var keyed := KeysOf(candidates);
    var out := FreshestPerKey(keyed);
    rows := [];
    var j := 0;
    while j < |out|
      invariant 0 <= j <= |out| && |rows| == j
      invariant forall i :: 0 <= i < j ==> rows[i] == candidates[out[i]]
    {
      rows := rows + [candidates[out[j]]];
      j := j + 1;
    }
    RowsAreWinners(candidates, out, rows);
    assert TakenAt(candidates, out, rows);
  }

  function KeysOf(candidates: seq<Row>): (keyed: seq<Keyed>)
    ensures |keyed| == |candidates|
    ensures forall k :: 0 <= k < |keyed| ==> keyed[k] == Keyed(candidates[k].basket, candidates[k].ts)
  {
    seq(|candidates|, k requires 0 <= k < |candidates| => Keyed(candidates[k].basket, candidates[k].ts))
  }

  lemma {:induction false} RowsAreWinners(candidates: seq<Row>, out: seq<nat>, rows: seq<Row>)
    requires Picks(KeysOf(candidates), out) && |rows| == |out|
    requires forall i :: 0 <= i < |out| ==> out[i] < |candidates| && rows[i] == candidates[out[i]]
    ensures forall i, j :: 0 <= i < j < |rows| ==> rows[i].basket != rows[j].basket
    ensures forall j :: 0 <= j < |rows| ==> Wins(candidates, rows[j])
    ensures forall k :: 0 <= k < |candidates| ==> HasBasket(rows, candidates[k].basket)
  {
    var keyed := KeysOf(candidates);
    var firsts :| PicksFreshest(keyed, firsts, out);
    forall i, j | 0 <= i < j < |rows|
      ensures rows[i].basket != rows[j].basket
    {
      assert firsts[i] < firsts[j] && IsFirst(keyed, firsts[j]);
      assert keyed[out[i]].key == keyed[firsts[i]].key != keyed[firsts[j]].key;
    }
    forall j | 0 <= j < |rows|
      ensures Wins(candidates, rows[j])
    {
      FreshestWins(candidates, out[j]);
    }
    forall k | 0 <= k < |candidates|
      ensures HasBasket(rows, candidates[k].basket)
    {
      var f := FirstOf(keyed, k);
      assert f in firsts;
      var j :| 0 <= j < |firsts| && firsts[j] == f;
      assert rows[j].basket == candidates[k].basket;
    }
  }

  lemma {:induction false} FreshestWins(candidates: seq<Row>, i: nat)
    requires i < |candidates| && IsFreshest(KeysOf(candidates), i, |candidates|)
    ensures Wins(candidates, candidates[i])
  {
    var keyed := KeysOf(candidates);
    forall k | 0 <= k < |candidates| && candidates[k].basket == candidates[i].basket
      ensures candidates[k].ts < candidates[i].ts || (candidates[k].ts == candidates[i].ts && k <= i)
    {
      assert keyed[k].key == keyed[i].key;
    }
    assert WinsAt(candidates, i);
  }

  lemma {:induction false} FirstOf(rows: seq<Keyed>, k: nat) returns (f: nat)
    requires k < |rows|
    ensures f <= k && rows[f].key == rows[k].key && IsFirst(rows, f)
  {
    f := k;
    if i :| 0 <= i < k && rows[i].key == rows[k].key {
      f := FirstOf(rows, i);
    }
  }

  ghost predicate WinsAt(candidates: seq<Row>, i: nat) {
    && i < |candidates|
    && forall k :: 0 <= k < |candidates| && candidates[k].basket == candidates[i].basket ==>
                     candidates[k].ts < candidates[i].ts || (candidates[k].ts == candidates[i].ts && k <= i)
  }

  /** `row` is the freshest row of its basket, the last to arrive on equal times. */
  ghost predicate Wins(candidates: seq<Row>, row: Row) {
    exists i: nat :: WinsAt(candidates, i) && candidates[i] == row
  }
}
