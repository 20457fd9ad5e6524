# StockChartGame candle engine in Dafny

This project models the core of StockChartGame, a browser game that simulates the price of one stock (AAPL) as OHLC candlesticks. It covers:
- the stock whose price setter refuses negative values;
- candlesticks that fold trade ticks into open, high, low, close and volume;
- the periodicity table;
- the history generator `simulateMarket`;
- the live session:
  - the trade tick;
  - candle rollover;
  - the start/stop button;
  - buying, selling and closing a position with its profit and loss;
- the geometry of `drawCandlesticks`.

Two builds of the same engine exist: `src/index.ts` and the newer `dist/index.js`. The compiled one adds positions, an account, the entry-price line and the chart's controls height. The two builds also draw their random changes from different ranges. The `Build` datatype (`Typescript`, `Compiled`) selects the ranges, and trading exists only in the `Compiled` build.

Modules, one per file:
- `Wrappers` (`wrappers.dfy`): the two exceptions (`NegativePrice`, `UnsupportedPeriodicity`) as values, `Result` and `Outcome` for operations that may throw, and `Option` for nullable references.
- `Periodicities` (`periodicities.dfy`): `getPeriodMilliseconds`.
- `Candles` (`candles.dfy`):
  - the `Bar` value and its shape invariant `WellFormed`;
  - the `Candlestick` class, whose fields change in place;
  - `ApplyTicks`, a fold of `update` over a run of ticks, with its closed-form characterisation.
- `Instruments` (`instruments.dfy`): the `Stock` class and its guarded price.
- `Histories` (`histories.dfy`):
  - the random walk of `simulateMarket`, specified by the function `Series` and the value `MarketHistory`;
  - the loop itself, `WalkBuckets`, a method proved against `Series`.
- `Trading` (`trading.dfy`): `SimTrade`, `SimAccount` and the profit-and-loss formula.
- `Sessions` (`sessions.dfy`): the page-level state as the class `Simulation`. Its invariant `Valid` holds across every handler:
  - the live candle is not part of the history;
  - every bar is well formed;
  - each bar opens at the previous close;
  - the stock price equals the live close and is not negative;
  - a held trade is active.
- `Charts` (`charts.dfy`): the price-to-pixel map, gridlines, candle shapes and the entry line, returned as a `Frame` of shapes.

Modelling conventions:
- Prices are `real` and timestamps are `int` milliseconds.
- Each `Math.random()` value is a parameter `u` with `0 <= u < 1` (`IsUnit`).
- `Date.now()` is a parameter.
- The DOM inputs (bar count, periodicity, contracts) are parameters.

## Model

| member | source | states |
|---|---|---|
| Periodicities.PeriodMilliseconds | src/index.ts:157-170 | The four tags map to 60000, 300000, 1800000 and 3600000 ms. Any other string fails with `UnsupportedPeriodicity`. It succeeds exactly for the four tags. |
| Periodicities.PeriodsArePositiveWholeMinutes | src/index.ts:19-24 | Every bar length is a positive whole number of minutes. Distinct tags have distinct lengths. |
| Candles.Opened | src/index.ts:47-54 | A new bar has open = high = low = close = its argument and volume 0. It is well formed and not an up candle. |
| Candles.Candlestick.constructor | src/index.ts:47-54 | The object's fields are those of `Opened(open, timestamp)`. |
| Candles.Candlestick.Update | src/index.ts:56-62 | close += change; high = max(old high, new close); low = min(old low, new close); volume += trade volume. Open and timestamp are unchanged. |
| Candles.Updated | src/index.ts:56-61 | The close moves by the price change. The new high is at least the old high and the new close, and equals one of them; the new low is at most both and equals one of them. Volume grows by the trade volume. Open and timestamp are kept. |
| Candles.UpdatedKeepsShape | src/index.ts:56-62 | An update with a non-negative volume keeps `low <= min(open,close) <= max(open,close) <= high` and `volume >= 0`, and leaves open and timestamp alone. |
| Candles.Bar.IsUpCandle | src/index.ts:66-68 | A bar is an up candle iff its body is not flat and its top is the close. A well-formed up candle has low <= open < close <= high. |
| Candles.Bar.Color | src/index.ts:70-72 | The colour is green iff close > open, and red iff close <= open, so an unchanged bar is red. |
| Candles.ApplyTicksTotals | src/index.ts:56-62 | After any run of ticks with non-negative volumes, the bar is still well formed, open and timestamp are kept, and volume has grown by the sum of the volumes. |
| Candles.ApplyTicksClose | src/index.ts:57-58 | After a run of ticks, the close is the starting close plus the sum of the price changes. |
| Candles.ApplyTicksHigh | src/index.ts:59 | After a run of ticks, the high is the maximum of the starting high and every intermediate close. It bounds them all and equals one of them. |
| Candles.ApplyTicksLow | src/index.ts:60 | After a run of ticks, the low is the minimum of the starting low and every intermediate close. It bounds them all and equals one of them. |
| Candles.CloseAndVolumeIgnoreTickOrder | src/index.ts:57-61 | Swapping two ticks leaves close and volume unchanged. |
| Candles.HighDependsOnTickOrder | src/index.ts:59 | Counterexample: from 100, ticks +1,-1 give a high of 101, while -1,+1 give 100. |
| Instruments.Stock.constructor | src/index.ts:2 | The symbol and price are stored as given. The constructor does not check the price. |
| Instruments.Stock.SetPrice | src/index.ts:8-11 | A negative value fails with `NegativePrice` and the price stays. Otherwise the price becomes the value. |
| Instruments.Stock.UpdatePrice | src/index.ts:13-15 | It succeeds iff old + change >= 0, and then price = old + change. On failure the price is unchanged. It keeps a non-negative price non-negative. |
| Histories.DrawVolume | src/index.ts:139 | `floor(u*1000+100)` lies in [100, 1100). |
| Histories.SeedPrice | src/index.ts:132 | The seed close lies in [100, 200). |
| Histories.HistoryChange | src/index.ts:136 | A history bar's change lies in [-2, 3) in the TypeScript build and in [-2.5, 2.5) in the compiled build (dist/index.js:119). |
| Histories.TickChange | src/index.ts:109 | A tick's change lies in [-2.5, 2.5) in the TypeScript build and in [-0.5, 0.5) in the compiled build (dist/index.js:97). |
| Histories.SynthBar | src/index.ts:135-145 | A history bar opens at the given price in its bucket and closes at that price plus the drawn change, with the drawn volume. Its high lies less than 2 above the top of its body, and its low less than 2 below the bottom. |
| Histories.SynthBarWellFormed | src/index.ts:135-145 | A generated bar is well formed, because the wicks add non-negative amounts. Its volume is in [100, 1100). |
| Histories.Series | src/index.ts:134-151 | The walk makes one bar per draw. |
| Histories.SeriesLastClose | src/index.ts:134-150 | The walk's final close is the opening price plus the sum of the drawn changes, whatever the wicks and volumes. It is the opening price when no bar is made. |
| Histories.SeriesProperties | src/index.ts:134-151 | Bar k has timestamp start + k*delta. The first bar opens at the seed, and each later bar opens at the previous close. Every bar is well formed with volume in [100, 1100). |
| Histories.SeriesTimestampsAscend | src/index.ts:134 | With delta > 0, the timestamps strictly ascend and all lie before start + n*delta. |
| Histories.BucketsBeforeNow | src/index.ts:129-134 | The loop `i = now - delta*n; i < now; i += delta` runs exactly n times, and not at all for n <= 0. |
| Histories.NewHistoricalBar | src/index.ts:135-145 | The loop body makes a fresh candle whose fields are the synthesised bar. |
| Histories.WalkBuckets | src/index.ts:131-151 | The loop produces one candle per bucket, in order, equal to `Series`. It returns the last close, or the seed when no bucket is walked. |
| Histories.MarketHistory | src/index.ts:127-154 | Generation succeeds iff the periodicity is supported and the seed plus the changes of the first max(barsToLoad, 0) draws is not negative. A successful history holds max(barsToLoad, 0) bars. |
| Histories.MarketHistoryFailures | src/index.ts:127-154 | Generation fails with `UnsupportedPeriodicity` iff the tag is unknown. It fails with `NegativePrice` iff the tag is known and the seed plus the changes of the first max(barsToLoad, 0) draws is negative. |
| Histories.MarketHistoryChained | src/index.ts:134-151 | A generated history is well formed and continuous. |
| Histories.MarketHistoryProperties | src/index.ts:127-154 | A successful history has max(barsToLoad, 0) bars. Its timestamps start at now - barsToLoad*delta, step by delta, ascend strictly and stay before now. It opens at the seed and is continuous and well formed. Volumes are in [100, 1100), and the final close is not negative. |
| Histories.SimulateMarket | src/index.ts:127-154 | It fails iff `MarketHistory` fails, with the same error and an unchanged stock price. On success it returns candles equal to the history bars and sets the stock price to the last close, which is the seed when no bar is made. |
| Trading.SimTrade.constructor | dist/index.js:65-73 | All five fields are stored as given. |
| Trading.SimAccount.constructor | dist/index.js:74-78 | The total is stored as given. |
| Trading.ProfitLoss | dist/index.js:251 | P&L is 0 at the entry price or with 0 contracts. With positive contracts, it is positive iff a long's price rose or a short's price fell, and negative in the opposite cases. |
| Trading.ProfitLossSymmetries | dist/index.js:251 | Short = -long. P&L is additive in contracts, and the difference between two prices is the P&L measured from the first price. |
| Trading.ProfitLossExample | dist/index.js:251 | Long 10 contracts at 100 with a price of 105 gives 50; the same short position gives -50. |
| Sessions.Simulation.constructor | dist/index.js:233-235 | Initial state: AAPL at 150, a live candle opened at 150, an empty history, no trade, an account at 0, stopped. `Valid` holds. |
| Sessions.Simulation.RefreshProfitLoss | dist/index.js:244-262 | An active trade's P&L becomes `ProfitLoss` at the stock price for the displayed contracts. Nothing else about the trade changes. |
| Sessions.Simulation.Tick | dist/index.js:90-104 | When stopped, nothing changes. Otherwise one change moves the stock and the live candle together, and the candle takes the volume. If the price would go negative it fails and nothing changes. A held trade is revalued. `Valid` is kept. The TypeScript build is src/index.ts:101-114. |
| Sessions.Simulation.Rollover | dist/index.js:236-241 | The history becomes old history + [old live candle], and the completed candle is left unchanged. The new live candle is fresh and opened at the old close with volume 0. `Valid` is kept. |
| Sessions.Simulation.ToggleSimulation | dist/index.js:287-305 | The running flag flips, and stopping changes nothing else. Starting installs `MarketHistory` as the history, opens the live candle at the last close and sets the price to it. On failure only the flag changes. `Valid` is kept. |
| Sessions.Simulation.Restart | dist/index.js:295-297 | The generated candles become the history, and the live candle opens at the stock price (the last close). |
| Sessions.Simulation.OpenPosition | dist/index.js:317-337 | A position opens iff no trade is held. The new trade is active at the stock price with P&L 0 and the chosen direction and contracts. Otherwise the trade is unchanged. |
| Sessions.Simulation.ClosePosition | dist/index.js:339-356 | With a held trade, the account gains its P&L, the trade is deactivated and the reference is cleared. Without one, nothing changes. |
| Sessions.CloseTwiceSettlesOnce | dist/index.js:340-353 | Two presses of close add a held trade's P&L to the account exactly once. |
| Charts.ChartHeight | dist/index.js:162-166 | The drawn height is the canvas height less the non-zero controls height. |
| Charts.MaxHigh | dist/index.js:174 | The value is the maximum of the highs: it bounds every high and is one of them. |
| Charts.MinLow | dist/index.js:175 | The value is the minimum of the lows: it bounds every low and is one of them. |
| Charts.Layout | dist/index.js:170-177 | The price range is [MinLow, MaxHigh], and yScale * range = drawable height. xScale is the drawable width divided by the bar count. |
| Charts.PlotFor | dist/index.js:176-177 | The scales solve yScale * (max - min) = height - 100 and xScale * count = width - 70. |
| Charts.PriceMap | dist/index.js:206-209 | The highest high maps to y = 50 and the lowest low to 50 + drawable height. Higher prices get strictly smaller y, and prices in range stay in the plot. |
| Charts.MapDifference | dist/index.js:206-209 | Two prices are drawn their difference times the vertical scale apart. |
| Charts.MapMonotone | dist/index.js:206-209 | With a positive scale, a price no lower is drawn no lower. |
| Charts.GridlineAt | dist/index.js:181-191 | A gridline spans from the left margin to the right margin, with its price label 40 px left of the left margin. Gridline 0 is at the lowest price, gridline 10 at the highest, and every gridline in between is within the range. |
| Charts.Gridlines | dist/index.js:181-191 | There are 11 gridlines, gridline i is `GridlineAt(i)`, and their prices rise strictly from bottom to top when the range is not flat. |
| Charts.GridlineGeometry | dist/index.js:181-191 | The gridline formula agrees with the candles' price map: gridline i lies where that map puts its price, i tenths of the drawable height above the bottom. |
| Charts.ShapeBodyWithinWick | dist/index.js:204-218 | For a well-formed bar, the body's top is y(max(open,close)) and its height is abs(close - open) * yScale. The wick covers the body. |
| Charts.Shape | dist/index.js:204-229 | A candle's body starts at its slot, index bar widths right of the left margin. The wick runs through the middle of the body, the body's height is not negative, and its colour is the bar's colour. A time label appears iff index % 5 == 0, at the slot's left edge, 15 px below the plot. |
| Charts.ShapeSlots | dist/index.js:205-218 | With a positive bar width, the wick lies strictly inside the body, and a body ends before the slot of any later candle starts. |
| Charts.Shapes | dist/index.js:204-230 | There is one shape per bar, in order. With a positive bar width no two bodies overlap. |
| Charts.EntryLineFor | dist/index.js:193-203 | The entry line uses the same price map, is green for long and red for short, spans the plot, and its caption sits 5 px above it. |
| Charts.EntryLineAgainstGridlines | dist/index.js:182-194 | The entry line is at a gridline's height iff the entry equals that gridline's price, and above it iff the entry is higher. |
| Charts.Draw | dist/index.js:149-231 | The frame consists of `Layout`, `Gridlines`, the entry line exactly when a position is active, and `Shapes`. |
| Charts.DrawGridlines | dist/index.js:181-191 | The gridline loop over i = 0..10 produces `Gridlines`. |
| Charts.DrawCandles | dist/index.js:204-230 | The loop over the bars produces `Shapes`. |

### Behaviour of the code worth knowing

- **Tick order.** The close and volume of a bar do not depend on the order of its ticks (`CloseAndVolumeIgnoreTickOrder`). The high and low do, because they are running extremes of the intermediate closes (`HighDependsOnTickOrder`).
- **Zero bars.** When `simulateMarket` makes no bar, it still sets the stock price, to the random seed (`SimulateMarket`, `MarketHistoryProperties`).
- **Flat chart.** `drawCandlesticks` divides by `maxPrice - minPrice` and by the bar count without a guard. `Charts.Layout` therefore requires a non-empty, non-flat run of bars.
- **Restart.** Pressing start replaces the history with a newly generated one (`ToggleSimulation`).
- **Failed start.** If `simulateMarket` throws during a start, the running flag stays on and no timers are armed (`ToggleSimulation`).

## Left out

- Timers: `setInterval`/`setTimeout`, their cancellation and re-arming in `simulateTrades`. One tick and one rollover are separate methods. The `if (!currentCandle)` guard there is never taken, because the live candle is created when the page loads.
- DOM and canvas: element lookups, canvas clearing and stroking, resizing to 80% of the window, button text, and the P&L text and colour. Drawing is modelled as the shapes in a `Frame`.
- Output formatting and the clock: `console.log`, `toFixed`, `toLocaleTimeString` and `Date`. A time label carries the raw timestamp.
- `parseInt` radix quirks: bar count and contracts are parameters.
  - `Sessions.Simulation.OpenPosition` takes `contracts` as the value read once at page load (radix 2 in the source).
  - The P&L uses `displayedContracts`, the value read at each refresh (radix 10).
- `Math.random` and `Date.now`: parameters, with random values required to lie in [0, 1).
- `Histories.SimulateMarket` requires at least `barsToLoad` bar draws, one per loop iteration.
- IEEE-754 rounding, `Infinity` and `NaN`: prices are exact reals.
- `Charts.Layout` requires a non-empty, non-flat run of bars, where the source would divide by zero.
- Charts models the compiled build's drawing. The TypeScript build's `drawCandlesticks` (src/index.ts:172-253) differs as follows, and is not modelled separately:
  - it ignores the controls height;
  - its gridlines start 10 px further left, in a lighter grey;
  - it has no entry line.
- The unused `Trade` class, the `ChartProperties` record, and `src/index.js` (a separate demo with an unchecked price update) are not part of this model.
- `Sessions.Simulation.OpenPosition` requires the compiled build, because the TypeScript build has no trading.
