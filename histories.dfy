/** The history generator `simulateMarket`: a random walk of bars over the
    time buckets that end at "now". */
module Histories {
  import opened Wrappers
  import opened Candles
  import opened Periodicities
  import opened Instruments

  /** The two builds differ only in the ranges of their random draws:
      `src/index.ts` (Typescript) and the newer `dist/index.js` (Compiled). */
  datatype Build = Typescript | Compiled

  /** The range of `Math.random()`. */
  predicate IsUnit(u: real) {
    0.0 <= u < 1.0
  }

  /** The four `Math.random()` values drawn for one historical bar, in the
      order the loop draws them. */
  datatype BarDraw = BarDraw(change: real, highWick: real, lowWick: real, volume: real)

  predicate ValidDraws(draws: seq<BarDraw>) {
    forall k :: 0 <= k < |draws| ==>
      IsUnit(draws[k].change) && IsUnit(draws[k].highWick) && IsUnit(draws[k].lowWick) && IsUnit(draws[k].volume)
  }

  /** `Math.floor(Math.random() * 1000 + 100)`: a whole volume in [100, 1100). */
  function DrawVolume(u: real): (v: int)
    ensures IsUnit(u) ==> 100 <= v < 1100
  {
    (u * 1000.0 + 100.0).Floor
  }

  /** `Math.random() * 100 + 100`: the seed close of the walk, in [100, 200). */
  function SeedPrice(u: real): (p: real)
    ensures IsUnit(u) ==> 100.0 <= p < 200.0
  {
    u * 100.0 + 100.0
  }

  /** The close-to-open change of a historical bar. */
  function HistoryChange(build: Build, u: real): (c: real)
    ensures IsUnit(u) && build == Typescript ==> -2.0 <= c < 3.0
    ensures IsUnit(u) && build == Compiled ==> -2.5 <= c < 2.5
  {
    match build
    case Typescript => u * 5.0 - 2.0
    case Compiled => u * 5.0 - 2.5
  }

  /** The price change of one live trade tick. */
  function TickChange(build: Build, u: real): (c: real)
    ensures IsUnit(u) && build == Typescript ==> -2.5 <= c < 2.5
    ensures IsUnit(u) && build == Compiled ==> -0.5 <= c < 0.5
  {
    match build
    case Typescript => u * 5.0 - 2.5
    case Compiled => u * 1.0 - 0.5
  }

  /** One historical bar: it opens at `open`, moves by a random change, and
      grows wicks of up to 2 above and below its body. */
  function SynthBar(build: Build, open: real, timestamp: int, d: BarDraw): (b: Bar)
    ensures b.open == open && b.timestamp == timestamp
    ensures b.close == open + HistoryChange(build, d.change) && b.volume == DrawVolume(d.volume)
    ensures IsUnit(d.highWick) ==> Max(b.open, b.close) <= b.high < Max(b.open, b.close) + 2.0
    ensures IsUnit(d.lowWick) ==> Min(b.open, b.close) - 2.0 < b.low <= Min(b.open, b.close)
  {
    var close := open + HistoryChange(build, d.change);
    Bar(open, Max(open, close) + d.highWick * 2.0, Min(open, close) - d.lowWick * 2.0,
        close, DrawVolume(d.volume), timestamp)
  }

  /** The close the walk has reached after `bars`, starting from `seed`. */
  function LastClose(seed: real, bars: seq<Bar>): real {
    if bars == [] then seed else bars[|bars| - 1].close
  }

  /** The total of the close-to-open changes the draws make. */
  function SumHistoryChanges(build: Build, draws: seq<BarDraw>): real
    decreases |draws|
  {
    if draws == [] then 0.0 else HistoryChange(build, draws[0].change) + SumHistoryChanges(build, draws[1..])
  }

  /** The series the loop builds, one bar per draw: the first bar opens at
      `open` in the bucket starting at `start`, and the rest continue from its
      close in the following buckets. */
  function Series(build: Build, open: real, start: int, delta: int, draws: seq<BarDraw>): (s: seq<Bar>)
    ensures |s| == |draws|
    decreases |draws|
  {
    if draws == [] then []
    else
      var first := SynthBar(build, open, start, draws[0]);
      [first] + Series(build, first.close, start + delta, delta, draws[1..])
  }

  /** The walk ends at `open` moved by the sum of all the changes drawn,
      whatever the wicks and volumes. */
  lemma {:induction false} SeriesLastClose(build: Build, open: real, start: int, delta: int, draws: seq<BarDraw>)
    ensures LastClose(open, Series(build, open, start, delta, draws)) == open + SumHistoryChanges(build, draws)
    decreases |draws|
  {
    if draws != [] {
      var first := SynthBar(build, open, start, draws[0]);
      var tail := Series(build, first.close, start + delta, delta, draws[1..]);
      SeriesLastClose(build, first.close, start + delta, delta, draws[1..]);
      assert Series(build, open, start, delta, draws) == [first] + tail;
      assert LastClose(open, [first] + tail) == LastClose(first.close, tail);
    }
  }

  /** A generated bar is well formed when its wick draws are not negative,
      which `Math.random` guarantees, and its volume lies in [100, 1100). */
  lemma SynthBarWellFormed(build: Build, open: real, timestamp: int, d: BarDraw)
    requires IsUnit(d.change) && IsUnit(d.highWick) && IsUnit(d.lowWick) && IsUnit(d.volume)
    ensures SynthBar(build, open, timestamp, d).WellFormed()
    ensures 100 <= SynthBar(build, open, timestamp, d).volume < 1100
  {
  }

  /** Bar k of the series carries timestamp `start + k * delta`; the first
      bar opens at `open` and every later one at the previous close; every bar
      is well formed with a volume in [100, 1100). */
  lemma {:induction false} SeriesProperties(build: Build, open: real, start: int, delta: int, draws: seq<BarDraw>)
    requires ValidDraws(draws)
    ensures forall k :: 0 <= k < |draws| ==>
      Series(build, open, start, delta, draws)[k].timestamp == start + k * delta
    ensures |draws| > 0 ==> Series(build, open, start, delta, draws)[0].open == open
    ensures forall k :: 0 < k < |draws| ==>
      Series(build, open, start, delta, draws)[k].open == Series(build, open, start, delta, draws)[k - 1].close
    ensures forall k :: 0 <= k < |draws| ==>
      Series(build, open, start, delta, draws)[k].WellFormed()
      && 100 <= Series(build, open, start, delta, draws)[k].volume < 1100
    decreases |draws|
  {
    if draws != [] {
      var first := SynthBar(build, open, start, draws[0]);
      var rest := draws[1..];
      assert ValidDraws(rest) by {
        forall k | 0 <= k < |rest| ensures rest[k] == draws[k + 1] { }
      }
      SeriesProperties(build, first.close, start + delta, delta, rest);
      SynthBarWellFormed(build, open, start, draws[0]);
      var s := Series(build, open, start, delta, draws);
      var tail := Series(build, first.close, start + delta, delta, rest);
      assert s == [first] + tail;
      forall k | 0 < k < |draws|
        ensures s[k].timestamp == start + k * delta
      {
        assert s[k] == tail[k - 1];
        assert start + delta + (k - 1) * delta == start + k * delta;
      }
    }
  }

  /** With a positive bar length, the timestamps of a series of n bars are
      strictly ascending and all lie before `start + n * delta`, which is
      "now" in `simulateMarket`. */
  lemma SeriesTimestampsAscend(build: Build, open: real, start: int, delta: int, draws: seq<BarDraw>)
    requires ValidDraws(draws) && delta > 0
    ensures forall j, k :: 0 <= j < k < |draws| ==>
      Series(build, open, start, delta, draws)[j].timestamp < Series(build, open, start, delta, draws)[k].timestamp
    ensures forall k :: 0 <= k < |draws| ==>
      Series(build, open, start, delta, draws)[k].timestamp < start + |draws| * delta
  {
    SeriesProperties(build, open, start, delta, draws);
    var s := Series(build, open, start, delta, draws);
    forall j, k | 0 <= j < k < |draws| ensures s[j].timestamp < s[k].timestamp {
      MulStrict(j, k, delta);
    }
    forall k | 0 <= k < |draws| ensures s[k].timestamp < start + |draws| * delta {
      MulStrict(k, |draws|, delta);
    }
  }

  lemma MulStrict(a: int, b: int, d: int)
    requires a < b && d > 0
    ensures a * d < b * d
  {
    assert b * d - a * d == (b - a) * d;
  }

  /** The number of buckets `simulateMarket` walks: `barsToLoad`, or none
      when it is not positive. */
  function BarCount(barsToLoad: int): nat {
    if barsToLoad > 0 then barsToLoad else 0
  }

  /** How many bucket boundaries `start, start + delta, ...` lie before
      `end`: the number of times the loop of `simulateMarket` runs. */
  function BucketsBefore(start: int, end: int, delta: int): nat
    requires delta > 0
    decreases end - start
  {
    if start >= end then 0 else 1 + BucketsBefore(start + delta, end, delta)
  }

  /** Walking back `barsToLoad` bar lengths from "now" leaves exactly
      `barsToLoad` buckets before "now", and none when it is not positive. */
  lemma {:induction false} BucketsBeforeNow(now: int, delta: int, barsToLoad: int)
    requires delta > 0
    ensures BucketsBefore(now - delta * barsToLoad, now, delta) == BarCount(barsToLoad)
    decreases if barsToLoad > 0 then barsToLoad else 0
  {
    if barsToLoad > 0 {
      MulStrict(0, barsToLoad, delta);
      assert now - delta * barsToLoad + delta == now - delta * (barsToLoad - 1);
      BucketsBeforeNow(now, delta, barsToLoad - 1);
    } else {
      assert delta * barsToLoad <= 0 by {
        if barsToLoad < 0 { MulStrict(barsToLoad, 0, delta); }
      }
    }
  }

  /** The body of the loop of `simulateMarket`: a candle opened at `open`
      whose high, low, close and volume are then overwritten with the drawn
      values. */
  method NewHistoricalBar(build: Build, open: real, timestamp: int, d: BarDraw)
      returns (candlestick: Candlestick)
    ensures fresh(candlestick)
    ensures candlestick.Snapshot() == SynthBar(build, open, timestamp, d)
  {
    var close := open + HistoryChange(build, d.change);
    var high := Max(open, close) + d.highWick * 2.0;
    var low := Min(open, close) - d.lowWick * 2.0;
    var volume := DrawVolume(d.volume);
    candlestick := new Candlestick(open, timestamp);
    candlestick.high := high;
    candlestick.low := low;
    candlestick.close := close;
    candlestick.volume := volume;
  }

  /** Where the loop of `simulateMarket` stands against its specification
      `whole` after k of the n bars: the bars made so far are `done`, the rest
      of `whole` is the series of the remaining draws opening at the last
      close, and that close is the seed when no bar has been made. */
  ghost predicate Walked(build: Build, whole: seq<Bar>, done: seq<Bar>, seedPrice: real, lastClose: real,
                         i: int, delta: int, draws: seq<BarDraw>, k: nat, n: nat)
  {
    && k <= n <= |draws| && |done| == k
    && whole == done + Series(build, lastClose, i, delta, draws[k..n])
    && lastClose == LastClose(seedPrice, done)
  }

  /** One step of the loop: making the bar of draw k in bucket i moves the
      walk on by one bar, one bucket and that bar's close. */
  lemma WalkedStep(build: Build, whole: seq<Bar>, done: seq<Bar>, seedPrice: real, lastClose: real,
                   i: int, delta: int, draws: seq<BarDraw>, k: nat, n: nat)
    requires Walked(build, whole, done, seedPrice, lastClose, i, delta, draws, k, n) && k < n
    ensures var bar := SynthBar(build, lastClose, i, draws[k]);
      Walked(build, whole, done + [bar], seedPrice, bar.close, i + delta, delta, draws, k + 1, n)
  {
    var bar := SynthBar(build, lastClose, i, draws[k]);
    var rest := draws[k..n];
    assert rest[0] == draws[k] && rest[1..] == draws[k + 1..n];
    assert whole == (done + [bar]) + Series(build, bar.close, i + delta, delta, draws[k + 1..n]);
  }

  /** When every draw has been used the walk has made the whole series and
      stands at its last close. */
  lemma WalkedEnd(build: Build, whole: seq<Bar>, done: seq<Bar>, seedPrice: real, lastClose: real,
                  i: int, delta: int, draws: seq<BarDraw>, n: nat)
    requires Walked(build, whole, done, seedPrice, lastClose, i, delta, draws, n, n)
    ensures done == whole && lastClose == LastClose(seedPrice, whole)
  {
    assert draws[n..n] == [];
  }

  /** The loop of `simulateMarket`: one bar per bucket boundary
      `i = startMS, startMS + delta, ... < endMS`, each opening at the previous
      close, the first at `seedPrice`. It returns the bars and the last close. */
  method WalkBuckets(build: Build, startMS: int, endMS: int, delta: int, seedPrice: real,
                     draws: seq<BarDraw>)
      returns (candlesticks: seq<Candlestick>, lastClose: real)
    requires delta > 0 && |draws| >= BucketsBefore(startMS, endMS, delta)
    ensures |candlesticks| == BucketsBefore(startMS, endMS, delta)
    ensures forall k :: 0 <= k < |candlesticks| ==>
      candlesticks[k].Snapshot() == Series(build, seedPrice, startMS, delta, draws[..|candlesticks|])[k]
    ensures lastClose == LastClose(seedPrice, Series(build, seedPrice, startMS, delta, draws[..|candlesticks|]))
  {
    ghost var n := BucketsBefore(startMS, endMS, delta);
    ghost var whole := Series(build, seedPrice, startMS, delta, draws[..n]);
    candlesticks := [];
    lastClose := seedPrice;
    ghost var done: seq<Bar> := [];
    var i := startMS;
    assert draws[0..n] == draws[..n];
    while i < endMS
      invariant |candlesticks| + BucketsBefore(i, endMS, delta) == n
      invariant Walked(build, whole, done, seedPrice, lastClose, i, delta, draws, |candlesticks|, n)
      invariant forall k :: 0 <= k < |candlesticks| ==> candlesticks[k].Snapshot() == done[k]
      decreases endMS - i
    {
      assert BucketsBefore(i, endMS, delta) == 1 + BucketsBefore(i + delta, endMS, delta);
      ghost var bar := SynthBar(build, lastClose, i, draws[|candlesticks|]);
      WalkedStep(build, whole, done, seedPrice, lastClose, i, delta, draws, |candlesticks|, n);
      var candlestick := NewHistoricalBar(build, lastClose, i, draws[|candlesticks|]);
      assert candlestick.Snapshot() == bar;
      candlesticks := candlesticks + [candlestick];
      done := done + [bar];
      lastClose := candlestick.close;
      i := i + delta;
    }
    WalkedEnd(build, whole, done, seedPrice, lastClose, i, delta, draws, n);
  }

  /** A run of bars as the chart expects it: every bar is well formed and
      each opens at the close of the one before. */
  predicate Chained(bars: seq<Bar>) {
    && (forall k :: 0 <= k < |bars| ==> bars[k].WellFormed())
    && (forall k :: 0 < k < |bars| ==> bars[k].open == bars[k - 1].close)
  }

  /** What `simulateMarket` produces, as a value: an unsupported periodicity
      fails first; otherwise the series over the `barsToLoad` buckets that end
      at `now`, which fails when its last close is negative because the
      price setter refuses it. It succeeds exactly for a supported
      periodicity whose walk, the seed plus every change drawn, ends at or
      above zero, and then holds one bar per bucket. */
  function MarketHistory(build: Build, barsToLoad: int, periodicity: string, now: int, seed: real,
                         draws: seq<BarDraw>): (r: Result<seq<Bar>>)
    requires |draws| >= barsToLoad
    ensures r.Ok? <==>
      IsPeriodicity(periodicity) && SeedPrice(seed) + SumHistoryChanges(build, draws[..BarCount(barsToLoad)]) >= 0.0
    ensures r.Ok? ==> |r.value| == BarCount(barsToLoad)
  {
    match PeriodMilliseconds(periodicity)
    case Err(e) => Err(e)
    case Ok(delta) =>
      var bars := Series(build, SeedPrice(seed), now - delta * barsToLoad, delta, draws[..BarCount(barsToLoad)]);
      SeriesLastClose(build, SeedPrice(seed), now - delta * barsToLoad, delta, draws[..BarCount(barsToLoad)]);
      if LastClose(SeedPrice(seed), bars) < 0.0 then Err(NegativePrice) else Ok(bars)
  }

  /** The history `simulateMarket` generates fails with
      `UnsupportedPeriodicity` exactly for an unknown periodicity, and with
      the setter's `NegativePrice` exactly when the periodicity is known and
      the seed plus the changes of the `barsToLoad` draws is negative. */
  lemma MarketHistoryFailures(build: Build, barsToLoad: int, periodicity: string, now: int, seed: real,
                              draws: seq<BarDraw>)
    requires |draws| >= barsToLoad
    ensures MarketHistory(build, barsToLoad, periodicity, now, seed, draws) == Err(UnsupportedPeriodicity)
            <==> !IsPeriodicity(periodicity)
    ensures MarketHistory(build, barsToLoad, periodicity, now, seed, draws) == Err(NegativePrice)
            <==> IsPeriodicity(periodicity)
                 && SeedPrice(seed) + SumHistoryChanges(build, draws[..BarCount(barsToLoad)]) < 0.0
  {
  }

  /** A generated history is chained. */
  lemma MarketHistoryChained(build: Build, barsToLoad: int, periodicity: string, now: int, seed: real,
                             draws: seq<BarDraw>)
    requires ValidDraws(draws) && |draws| >= barsToLoad
    requires MarketHistory(build, barsToLoad, periodicity, now, seed, draws).Ok?
    ensures Chained(MarketHistory(build, barsToLoad, periodicity, now, seed, draws).value)
  {
    var delta := PeriodMilliseconds(periodicity).value;
    var d := draws[..BarCount(barsToLoad)];
    assert ValidDraws(d) by {
      forall k | 0 <= k < |d| ensures d[k] == draws[k] { }
    }
    SeriesProperties(build, SeedPrice(seed), now - delta * barsToLoad, delta, d);
  }

  /** When the history `simulateMarket` generates succeeds it holds
      `barsToLoad` bars (none when that is not positive) whose timestamps
      ascend strictly from `now - barsToLoad` bar lengths in steps of one bar
      length and stay before `now`; the first bar opens at the seed price and
      each later one at the previous close; every bar is well formed with a
      volume in [100, 1100); and the final close is not negative. */
  lemma MarketHistoryProperties(build: Build, barsToLoad: int, periodicity: string, now: int, seed: real,
                                draws: seq<BarDraw>)
    requires IsUnit(seed) && ValidDraws(draws) && |draws| >= barsToLoad
    requires MarketHistory(build, barsToLoad, periodicity, now, seed, draws).Ok?
    ensures var bars := MarketHistory(build, barsToLoad, periodicity, now, seed, draws).value;
      var delta := PeriodMilliseconds(periodicity).value;
      && |bars| == BarCount(barsToLoad)
      && (forall k :: 0 <= k < |bars| ==> bars[k].timestamp == now - delta * barsToLoad + k * delta)
      && (forall j, k :: 0 <= j < k < |bars| ==> bars[j].timestamp < bars[k].timestamp)
      && (forall k :: 0 <= k < |bars| ==> bars[k].timestamp < now)
      && (|bars| > 0 ==> bars[0].open == SeedPrice(seed))
      && Chained(bars)
      && (forall k :: 0 <= k < |bars| ==> 100 <= bars[k].volume < 1100)
      && LastClose(SeedPrice(seed), bars) >= 0.0
  {
    var delta := PeriodMilliseconds(periodicity).value;
    var start := now - delta * barsToLoad;
    var d := draws[..BarCount(barsToLoad)];
    assert ValidDraws(d) by {
      forall k | 0 <= k < |d| ensures d[k] == draws[k] { }
    }
    SeriesProperties(build, SeedPrice(seed), start, delta, d);
    SeriesTimestampsAscend(build, SeedPrice(seed), start, delta, d);
    if barsToLoad > 0 {
      assert start + |d| * delta == now;
    }
  }

  /** `simulateMarket`. The bar length is looked up first, so an unsupported
      periodicity throws before anything changes. Then the buckets are walked
      and the stock price is set to the last close through the setter, which
      throws if the walk ended below zero; when no bar is made that close is
      the seed. The clock is the parameter `now`; the `Math.random()` draws
      are `seed` and `draws`. */
  method SimulateMarket(build: Build, barsToLoad: int, periodicity: string, stock: Stock,
                        now: int, seed: real, draws: seq<BarDraw>)
      returns (r: Result<seq<Candlestick>>)
    requires IsUnit(seed) && ValidDraws(draws) && |draws| >= barsToLoad
    modifies stock
    ensures var h := MarketHistory(build, barsToLoad, periodicity, now, seed, draws);
      && (r.Err? <==> h.Err?)
      && (r.Err? ==> r.error == h.error && stock.price == old(stock.price))
      && (r.Ok? ==> |r.value| == |h.value| && stock.price == LastClose(SeedPrice(seed), h.value)
                    && forall k :: 0 <= k < |h.value| ==> r.value[k].Snapshot() == h.value[k])
  {
    var period := PeriodMilliseconds(periodicity);
    if period.Err? {
      return Err(period.error);
    }
    var delta := period.value;
    var endMS := now;
    var startMS := endMS - delta * barsToLoad;
    BucketsBeforeNow(now, delta, barsToLoad);
    var candlesticks, lastClose := WalkBuckets(build, startMS, endMS, delta, SeedPrice(seed), draws);
    var stored := stock.SetPrice(lastClose);
    if stored.Fail? {
      return Err(stored.error);
    }
    r := Ok(candlesticks);
  }

}
