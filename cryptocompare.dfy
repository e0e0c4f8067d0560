/**
 * Ticks from the market-data service and the projections that turn a tick
 * list into one price or volume series. The HTTP queries that produce the
 * tick lists are not part of this model; the cycle receives them as input.
 */
module CryptoCompare {

  /** One OHLCV sample, as the service reports it. */
  datatype Tick = Tick(time: int, close: real, high: real, low: real, open: real,
                       volumeFrom: real, volumeTo: real)

  /** The open prices, in tick order. */
  method Open(data: seq<Tick>) returns (result: seq<real>)
    ensures |result| == |data|
    ensures forall i :: 0 <= i < |data| ==> result[i] == data[i].open
  {
    result := [];
    for i := 0 to |data|
      invariant |result| == i
      invariant forall k :: 0 <= k < i ==> result[k] == data[k].open
    {
      result := result + [data[i].open];
    }
  }

  /** The high prices, in tick order. */
  method High(data: seq<Tick>) returns (result: seq<real>)
    ensures |result| == |data|
    ensures forall i :: 0 <= i < |data| ==> result[i] == data[i].high
  {
    result := [];
    for i := 0 to |data|
      invariant |result| == i
      invariant forall k :: 0 <= k < i ==> result[k] == data[k].high
    {
      result := result + [data[i].high];
    }
  }

  /** The low prices, in tick order. */
  method Low(data: seq<Tick>) returns (result: seq<real>)
    ensures |result| == |data|
    ensures forall i :: 0 <= i < |data| ==> result[i] == data[i].low
  {
    result := [];
    for i := 0 to |data|
      invariant |result| == i
      invariant forall k :: 0 <= k < i ==> result[k] == data[k].low
    {
      result := result + [data[i].low];
    }
  }

  /** The close prices, in tick order. */
  method Close(data: seq<Tick>) returns (result: seq<real>)
    ensures |result| == |data|
    ensures forall i :: 0 <= i < |data| ==> result[i] == data[i].close
  {
    result := [];
    for i := 0 to |data|
      invariant |result| == i
      invariant forall k :: 0 <= k < i ==> result[k] == data[k].close
    {
      result := result + [data[i].close];
    }
  }

  /** The traded volume in the base currency (the `volumefrom` field, not
      `volumeto`), in tick order. */
  method VolumeFrom(data: seq<Tick>) returns (result: seq<real>)
    ensures |result| == |data|
    ensures forall i :: 0 <= i < |data| ==> result[i] == data[i].volumeFrom
  {
    result := [];
    for i := 0 to |data|
      invariant |result| == i
      invariant forall k :: 0 <= k < i ==> result[k] == data[k].volumeFrom
    {
      result := result + [data[i].volumeFrom];
    }
  }
}
