/**
 * The edge-trigger cache: one counter per (trading pair, watcher) key turns
 * each cycle's fired or not-fired verdict into "send a notification now or
 * not". A fired watcher is reported only when its counter reads 0, and the
 * counter then counts consecutive fired cycles; a cycle that does not fire
 * resets it.
 */
module Debounce {

  /** A cache key: the trading pair's slug (or "global") and the watcher name. */
  datatype Key = Key(tradingpair: string, watcher: string)

  /** The counter of `k`; a key never written reads as 0. */
  function Count(counters: map<Key, nat>, k: Key): (n: nat)
  {
    if k in counters then counters[k] else 0
  }

  class Cache {
    var counters: map<Key, nat>

    /** An empty cache: every key reads 0. */
    constructor ()
      ensures counters == map[]
    {
      counters := map[];
    }

    /** The counter of `k`. */
    function Get(k: Key): nat
      reads this
    {
      Count(counters, k)
    }

    /** Records one watcher verdict for `k` and says whether to send. */
    method Record(k: Key, fired: bool) returns (send: bool)
      modifies this
      ensures send <==> fired && Count(old(counters), k) == 0
      ensures counters == old(counters)[k := if fired then Count(old(counters), k) + 1 else 0]
      ensures forall other :: other != k ==> Count(counters, other) == Count(old(counters), other)
    {
      send := false;
      if fired {
        if Get(k) == 0 {
          send := true;
        }
        counters := counters[k := Get(k) + 1];
      } else {
        counters := counters[k := 0];
      }
    }

    /** The verdicts of `k` over consecutive cycles, recorded one cycle at a
        time: the sends are those `Replay` describes, the counter ends at
        `LastCount` and no other key changes. */
    method RecordAll(k: Key, xs: seq<bool>) returns (sends: seq<bool>)
      modifies this
      ensures sends == Replay(Count(old(counters), k), xs)
      ensures Count(counters, k) == LastCount(Count(old(counters), k), xs)
      ensures forall other :: other != k ==> Count(counters, other) == Count(old(counters), other)
    {
      ghost var c0 := Count(counters, k);
      ghost var m0 := counters;
      sends := [];
      for i := 0 to |xs|
        invariant sends == Replay(c0, xs[..i])
        invariant Count(counters, k) == LastCount(c0, xs[..i])
        invariant forall other :: other != k ==> Count(counters, other) == Count(m0, other)
      {
        ReplaySnoc(c0, xs[..i], xs[i]);
        assert xs[..i + 1] == xs[..i] + [xs[i]];
        var send := Record(k, xs[i]);
        sends := sends + [send];
      }
      assert xs[..|xs|] == xs;
    }
  }

  /** The send decisions for one key over consecutive cycles, starting from
      counter `c`, when its verdicts are `xs`. */
  function Replay(c: nat, xs: seq<bool>): (sends: seq<bool>)
    ensures |sends| == |xs|
    decreases |xs|
  {
    if xs == [] then []
    else [xs[0] && c == 0] + Replay(if xs[0] then c + 1 else 0, xs[1..])
  }

  /** The counter of one key after its verdicts `xs`, starting from `c`. */
  function LastCount(c: nat, xs: seq<bool>): (last: nat)
    ensures xs != [] && !xs[|xs| - 1] ==> last == 0
    decreases |xs|
  {
    if xs == [] then c else LastCount(if xs[0] then c + 1 else 0, xs[1..])
  }

  /** One more cycle adds one send decision, taken on the counter the
      earlier cycles left, and steps that counter. */
  lemma {:induction false} ReplaySnoc(c: nat, xs: seq<bool>, x: bool)
    ensures Replay(c, xs + [x]) == Replay(c, xs) + [x && LastCount(c, xs) == 0]
    ensures LastCount(c, xs + [x]) == if x then LastCount(c, xs) + 1 else 0
    decreases |xs|
  {
    if xs != [] {
      var c' := if xs[0] then c + 1 else 0;
      assert (xs + [x])[1..] == xs[1..] + [x];
      ReplaySnoc(c', xs[1..], x);
    }
  }

  /** Cycle i sends exactly when it fired and the cycle before it did not
      (for the first cycle, when the counter started at 0). */
  lemma {:induction false} ReplayAt(c: nat, xs: seq<bool>, i: nat)
    requires i < |xs|
    ensures Replay(c, xs)[i] <==> xs[i] && (if i == 0 then c == 0 else !xs[i - 1])
    decreases i
  {
    if i > 0 {
      var c' := if xs[0] then c + 1 else 0;
      assert Replay(c, xs)[i] == Replay(c', xs[1..])[i - 1];
      ReplayAt(c', xs[1..], i - 1);
    }
  }

  /** The number of true entries. */
  function CountTrue(bs: seq<bool>): nat
  {
    if bs == [] then 0 else (if bs[0] then 1 else 0) + CountTrue(bs[1..])
  }

  /** The number of maximal runs of true entries in `xs`, where `prev` tells
      whether the element just before `xs` was true. */
  function RunStarts(prev: bool, xs: seq<bool>): nat
    decreases |xs|
  {
    if xs == [] then 0 else (if xs[0] && !prev then 1 else 0) + RunStarts(xs[0], xs[1..])
  }

  /** Over consecutive cycles, the number of notifications for a key is the
      number of maximal runs of fired cycles (a run already under way when
      the counter is positive is not reported again). */
  lemma {:induction false} ReplayCountsRuns(c: nat, xs: seq<bool>)
    ensures CountTrue(Replay(c, xs)) == RunStarts(c > 0, xs)
    decreases |xs|
  {
    if xs != [] {
      var c' := if xs[0] then c + 1 else 0;
      var rest := Replay(c', xs[1..]);
      assert Replay(c, xs) == [xs[0] && c == 0] + rest;
      assert ([xs[0] && c == 0] + rest)[1..] == rest;
      ReplayCountsRuns(c', xs[1..]);
    }
  }

  /** Fired cycles never send while the counter is positive. */
  lemma ReplayQuietWhilePositive(c: nat, xs: seq<bool>)
    requires c > 0 && |xs| > 0
    ensures !Replay(c, xs)[0]
  {
  }
}
