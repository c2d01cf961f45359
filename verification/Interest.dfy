/**
 Subscription interest: nested reference counts per symbol and exchange, and when
 the venue itself has to be asked to subscribe or unsubscribe.
 */
module Interest {

  datatype SubKey = SubKey(symbol: string, exchange: string)

  /** Symbol, then exchange, then how many clients hold the topic. */
  type Counts = map<string, map<string, nat>>

  /** No empty inner map and no zero count. */
  ghost predicate Tidy(subs: Counts) {
    forall s :: s in subs ==> subs[s] != map[] && forall x :: x in subs[s] ==> subs[s][x] >= 1
  }

  /** The flat view: how many clients hold `key`. */
  function Count(subs: Counts, key: SubKey): nat {
    if key.symbol in subs && key.exchange in subs[key.symbol] then subs[key.symbol][key.exchange] else 0
  }

  class Hub {
    var subs: Counts

    constructor ()
      ensures subs == map[] && Tidy(subs)
    {
      subs := map[];
    }

    /** Add a client; `needed` asks the caller to subscribe at the venue. */
    method AddInterest(key: SubKey) returns (needed: bool)
      requires Tidy(subs)
      modifies this
      ensures Tidy(subs)
      ensures needed <==> Count(old(subs), key) == 0
      ensures forall k :: Count(subs, k) == Count(old(subs), k) + (if k == key then 1 else 0)
    {
      var byExchange := if key.symbol in subs then subs[key.symbol] else map[];
      if key.exchange in byExchange {
        subs := subs[key.symbol := byExchange[key.exchange := byExchange[key.exchange] + 1]];
        return false;
      }
      subs := subs[key.symbol := byExchange[key.exchange := 1]];
      return true;
    }

    /** Drop a client; `needed` asks the caller to unsubscribe at the venue. */
    method RemoveInterest(key: SubKey) returns (needed: bool)
      requires Tidy(subs)
      modifies this
      ensures Tidy(subs)
      ensures needed <==> Count(old(subs), key) == 1
      ensures forall k :: Count(subs, k) == Count(old(subs), k) - (if k == key && Count(old(subs), k) > 0 then 1 else 0)
    {
      if key.symbol !in subs {
        return false;
      }
      var byExchange := subs[key.symbol];
      if key.exchange !in byExchange {
        return false;
      }
      var count := byExchange[key.exchange] - 1;
      if count > 0 {
        subs := subs[key.symbol := byExchange[key.exchange := count]];
        return false;
      }
      byExchange := byExchange - {key.exchange};
      assert forall x :: x in subs[key.symbol] ==> x == key.exchange || x in byExchange;
      if byExchange == map[] {
        subs := subs - {key.symbol};
      } else {
        subs := subs[key.symbol := byExchange];
      }
      return true;
    }

    /** Any run of calls, with the venue calls it asked for on `key`. */
    method Serve(ops: seq<Op>, key: SubKey) returns (calls: seq<VenueCall>)
      requires Tidy(subs) && Count(subs, key) == 0
      modifies this
      ensures Tidy(subs)
      ensures calls == Calls(ops, key) && Count(subs, key) == Balance(ops, key)
    {
      calls := [];
      for i := 0 to |ops|
        invariant Tidy(subs)
        invariant calls == Calls(ops[..i], key) && Count(subs, key) == Balance(ops[..i], key)
      {
        assert ops[..i + 1][..i] == ops[..i];
        var needed;
        if ops[i].Add? {
          needed := AddInterest(ops[i].key);
        } else {
          needed := RemoveInterest(ops[i].key);
        }
        if needed && ops[i].key == key {
          calls := calls + [if ops[i].Add? then Subscribe else Unsubscribe];
        }
      }
      assert ops[..|ops|] == ops;
    }
  }

  // --- runs ------------------------------------------------------------------------

  datatype Op = Add(key: SubKey) | Remove(key: SubKey)

  datatype VenueCall = Subscribe | Unsubscribe

  /** The count of `key` after a run, told from the run alone. */
  function Balance(ops: seq<Op>, key: SubKey): nat {
    if ops == [] then 0
    else
      var before, op := Balance(ops[..|ops| - 1], key), ops[|ops| - 1];
      if op.key != key then before
      else if op.Add? then before + 1
      else if before > 0 then before - 1 else 0
  }

  /** The venue calls a run makes for `key`: when the count leaves and when it returns to zero. */
  function Calls(ops: seq<Op>, key: SubKey): seq<VenueCall> {
    if ops == [] then []
    else
      var rest, op := ops[..|ops| - 1], ops[|ops| - 1];
      var before := Balance(rest, key);
      Calls(rest, key) +
      (if op == Add(key) && before == 0 then [Subscribe]
       else if op == Remove(key) && before == 1 then [Unsubscribe] else [])
  }

  /**
   The venue sees strict alternation, starting with a subscribe, and is subscribed exactly while the topic is
   held.
   */
  lemma {:induction false} CallsAlternate(ops: seq<Op>, key: SubKey)
    ensures var calls := Calls(ops, key);
      && (forall i :: 0 <= i < |calls| ==> calls[i] == if i % 2 == 0 then Subscribe else Unsubscribe)
      && (Balance(ops, key) > 0 <==> |calls| % 2 == 1)
    decreases |ops|
  {
    if ops != [] { CallsAlternate(ops[..|ops| - 1], key); }
  }
}
