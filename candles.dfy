/** Candlesticks: the value of one bar, the mutable `Candlestick` object the
    engine updates tick by tick, and what a run of ticks does to a bar. */
module Candles {

  /** `Math.max` and `Math.min` on two prices. */
  function Max(a: real, b: real): real { if a >= b then a else b }
  function Min(a: real, b: real): real { if a <= b then a else b }

  /** The fields of a candlestick at one moment: prices, the accumulated
      volume and the start of its time bucket in milliseconds. */
  datatype Bar = Bar(open: real, high: real, low: real, close: real, volume: int, timestamp: int)
  {
    /** The shape every bar keeps: the wick covers the body, and volume is a
        sum of non-negative trade volumes. */
    predicate WellFormed() {
      low <= Min(open, close) && Max(open, close) <= high && volume >= 0
    }

    /** `isUpCandle`: a strict rise from open to close. An up candle has a
        body that is not flat and whose top is the close; in a well-formed
        one the open sits at the bottom of the body. */
    function IsUpCandle(): (up: bool)
      ensures up <==> open != close && Max(open, close) == close
      ensures up && WellFormed() ==> low <= open < close <= high
    {
      close > open
    }

    /** `getColor`: green exactly for a strict rise, so an unchanged bar
        (close == open) is red, as is a fall. */
    function Color(): (c: string)
      ensures c == "green" <==> close > open
      ensures c == "red" <==> close <= open
    {
      if IsUpCandle() then "green" else "red"
    }
  }

  /** The bar the constructor creates: open-only, no volume yet. */
  function Opened(open: real, timestamp: int): (b: Bar)
    ensures b.WellFormed() && !b.IsUpCandle()
    ensures b.open == b.high == b.low == b.close == open
    ensures b.volume == 0 && b.timestamp == timestamp
  {
    Bar(open, open, open, open, 0, timestamp)
  }

  /** What `update` does to a bar: the close moves by the price change, the
      high and low follow it as a running maximum and minimum, and the volume
      accumulates. */
  function Updated(b: Bar, priceChange: real, tradeVolume: int): (r: Bar)
    ensures r.close == b.close + priceChange
    ensures r.high >= b.high && r.high >= r.close && (r.high == b.high || r.high == r.close)
    ensures r.low <= b.low && r.low <= r.close && (r.low == b.low || r.low == r.close)
    ensures r.volume == b.volume + tradeVolume
    ensures r.open == b.open && r.timestamp == b.timestamp
  {
    var newPrice := b.close + priceChange;
    b.(close := newPrice, high := Max(b.high, newPrice), low := Min(b.low, newPrice),
       volume := b.volume + tradeVolume)
  }

  /** An update keeps a bar well formed whenever the trade volume is not
      negative, and never touches its open or its timestamp. */
  lemma UpdatedKeepsShape(b: Bar, priceChange: real, tradeVolume: int)
    requires b.WellFormed() && tradeVolume >= 0
    ensures Updated(b, priceChange, tradeVolume).WellFormed()
    ensures Updated(b, priceChange, tradeVolume).open == b.open
    ensures Updated(b, priceChange, tradeVolume).timestamp == b.timestamp
  {
  }

  /** One simulated trade: a price change and a traded volume. */
  datatype Tick = Tick(priceChange: real, volume: int)

  /** The bar after applying a run of ticks in order. */
  function ApplyTicks(b: Bar, ticks: seq<Tick>): Bar
    decreases |ticks|
  {
    if ticks == [] then b
    else
      var last := ticks[|ticks| - 1];
      Updated(ApplyTicks(b, ticks[..|ticks| - 1]), last.priceChange, last.volume)
  }

  function SumChanges(ticks: seq<Tick>): real
    decreases |ticks|
  {
    if ticks == [] then 0.0 else SumChanges(ticks[..|ticks| - 1]) + ticks[|ticks| - 1].priceChange
  }

  function SumVolumes(ticks: seq<Tick>): int
    decreases |ticks|
  {
    if ticks == [] then 0 else SumVolumes(ticks[..|ticks| - 1]) + ticks[|ticks| - 1].volume
  }

  predicate NonNegativeVolumes(ticks: seq<Tick>) {
    forall k :: 0 <= k < |ticks| ==> ticks[k].volume >= 0
  }

  /** The close after the first k ticks of a run started at close c0. */
  function CloseAfter(c0: real, ticks: seq<Tick>, k: nat): real
    requires k <= |ticks|
  {
    c0 + SumChanges(ticks[..k])
  }

  /** Dropping the last tick keeps the first ticks' volumes non-negative. */
  lemma FrontVolumes(ticks: seq<Tick>)
    requires ticks != [] && NonNegativeVolumes(ticks)
    ensures NonNegativeVolumes(ticks[..|ticks| - 1])
  {
    var front := ticks[..|ticks| - 1];
    forall k | 0 <= k < |front| ensures front[k].volume >= 0 {
      assert front[k] == ticks[k];
    }
  }

  /** The closes passed through by a run and by the run without its last
      tick agree on the common prefix, and the run's own close is the last. */
  lemma CloseAfterFront(b: Bar, ticks: seq<Tick>)
    requires ticks != []
    ensures forall k :: 1 <= k <= |ticks| - 1 ==>
      CloseAfter(b.close, ticks, k) == CloseAfter(b.close, ticks[..|ticks| - 1], k)
    ensures CloseAfter(b.close, ticks, |ticks|) == b.close + SumChanges(ticks)
  {
    var front := ticks[..|ticks| - 1];
    forall k | 1 <= k <= |ticks| - 1
      ensures CloseAfter(b.close, ticks, k) == CloseAfter(b.close, front, k)
    {
      assert ticks[..k] == front[..k];
    }
    assert ticks[..|ticks|] == ticks;
  }

  /** A run of ticks leaves a bar whose volume grew by the sum of the
      volumes; open and timestamp are kept and the bar stays well formed. */
  lemma {:induction false} ApplyTicksTotals(b: Bar, ticks: seq<Tick>)
    requires b.WellFormed() && NonNegativeVolumes(ticks)
    ensures ApplyTicks(b, ticks).WellFormed()
    ensures ApplyTicks(b, ticks).open == b.open
    ensures ApplyTicks(b, ticks).timestamp == b.timestamp
    ensures ApplyTicks(b, ticks).volume == b.volume + SumVolumes(ticks)
  {
    if ticks != [] {
      var front := ticks[..|ticks| - 1];
      FrontVolumes(ticks);
      ApplyTicksTotals(b, front);
      var last := ticks[|ticks| - 1];
      UpdatedKeepsShape(ApplyTicks(b, front), last.priceChange, last.volume);
    }
  }

  /** The high after a run of ticks is the largest of the starting high and
      every close the bar passed through. */
  lemma {:induction false} ApplyTicksHigh(b: Bar, ticks: seq<Tick>)
    ensures b.high <= ApplyTicks(b, ticks).high
    ensures forall k :: 1 <= k <= |ticks| ==> CloseAfter(b.close, ticks, k) <= ApplyTicks(b, ticks).high
    ensures ApplyTicks(b, ticks).high == b.high
         || exists k :: 1 <= k <= |ticks| && ApplyTicks(b, ticks).high == CloseAfter(b.close, ticks, k)
  {
    if ticks != [] {
      var n := |ticks|;
      var front := ticks[..n - 1];
      ApplyTicksHigh(b, front);
      ApplyTicksClose(b, ticks);
      CloseAfterFront(b, ticks);
      var p := ApplyTicks(b, front);
      var r := ApplyTicks(b, ticks);
      assert r.close == CloseAfter(b.close, ticks, n);
      if r.high != b.high && r.high != r.close {
        assert r.high == p.high;
        var k :| 1 <= k <= |front| && p.high == CloseAfter(b.close, front, k);
        assert r.high == CloseAfter(b.close, ticks, k);
      }
    }
  }

  /** The low after a run of ticks is the smallest of the starting low and
      every close the bar passed through. */
  lemma {:induction false} ApplyTicksLow(b: Bar, ticks: seq<Tick>)
    ensures ApplyTicks(b, ticks).low <= b.low
    ensures forall k :: 1 <= k <= |ticks| ==> ApplyTicks(b, ticks).low <= CloseAfter(b.close, ticks, k)
    ensures ApplyTicks(b, ticks).low == b.low
         || exists k :: 1 <= k <= |ticks| && ApplyTicks(b, ticks).low == CloseAfter(b.close, ticks, k)
  {
    if ticks != [] {
      var n := |ticks|;
      var front := ticks[..n - 1];
      ApplyTicksLow(b, front);
      ApplyTicksClose(b, ticks);
      CloseAfterFront(b, ticks);
      var p := ApplyTicks(b, front);
      var r := ApplyTicks(b, ticks);
      assert r.close == CloseAfter(b.close, ticks, n);
      if r.low != b.low && r.low != r.close {
        assert r.low == p.low;
        var k :| 1 <= k <= |front| && p.low == CloseAfter(b.close, front, k);
        assert r.low == CloseAfter(b.close, ticks, k);
      }
    }
  }

  /** The close after a run of ticks, with no assumption on the bar. */
  lemma {:induction false} ApplyTicksClose(b: Bar, ticks: seq<Tick>)
    ensures ApplyTicks(b, ticks).close == b.close + SumChanges(ticks)
  {
    if ticks != [] {
      ApplyTicksClose(b, ticks[..|ticks| - 1]);
    }
  }

  /** The close and the volume of a bar do not depend on the order of its
      ticks. */
  lemma CloseAndVolumeIgnoreTickOrder(b: Bar, t1: Tick, t2: Tick)
    ensures ApplyTicks(b, [t1, t2]).close == ApplyTicks(b, [t2, t1]).close
    ensures ApplyTicks(b, [t1, t2]).volume == ApplyTicks(b, [t2, t1]).volume
  {
    assert [t1, t2][..1] == [t1];
    assert [t2, t1][..1] == [t2];
    assert [t1][..0] == [] && [t2][..0] == [];
  }

  /** The high is a running maximum, so it does depend on the order of the
      ticks: +1 then -1 reaches 101 from 100, -1 then +1 never does. */
  lemma HighDependsOnTickOrder()
    ensures ApplyTicks(Opened(100.0, 0), [Tick(1.0, 0), Tick(-1.0, 0)]).high == 101.0
    ensures ApplyTicks(Opened(100.0, 0), [Tick(-1.0, 0), Tick(1.0, 0)]).high == 100.0
  {
    assert [Tick(1.0, 0), Tick(-1.0, 0)][..1] == [Tick(1.0, 0)];
    assert [Tick(-1.0, 0), Tick(1.0, 0)][..1] == [Tick(-1.0, 0)];
    assert [Tick(1.0, 0)][..0] == [] && [Tick(-1.0, 0)][..0] == [];
  }

  /** The `Candlestick` object: its fields are public and updated in place. */
  class Candlestick {
    var open: real
    var high: real
    var low: real
    var close: real
    var volume: int
    var timestamp: int

    function Snapshot(): Bar
      reads this
    {
      Bar(open, high, low, close, volume, timestamp)
    }

    /** A new candle is open-only: all four prices equal `open`, volume 0. */
    constructor(open: real, timestamp: int)
      ensures Snapshot() == Opened(open, timestamp)
    {
      this.open := open;
      this.high := open;
      this.low := open;
      this.close := open;
      this.volume := 0;
      this.timestamp := timestamp;
    }

    /** `update`: folds one trade into the candle and changes nothing else. */
    method Update(priceChange: real, tradeVolume: int)
      modifies this
      ensures close == old(close) + priceChange
      ensures high == Max(old(high), close) && low == Min(old(low), close)
      ensures volume == old(volume) + tradeVolume
      ensures open == old(open) && timestamp == old(timestamp)
      ensures Snapshot() == Updated(old(Snapshot()), priceChange, tradeVolume)
    {
      var newPrice := close + priceChange;
      close := newPrice;
      high := Max(high, newPrice);
      low := Min(low, newPrice);
      volume := volume + tradeVolume;
    }
  }
}
