/** The game session: the page-level state of the engine (the stock, the
    completed candles, the live candle, the open trade, the account and the
    running flag) and the handlers that change it. */
module Sessions {
  import opened Wrappers
  import opened Candles
  import opened Instruments
  import opened Trading
  import opened Histories
  import opened Periodicities

  class Simulation {
    /** Which build's random ranges the ticks use. */
    const build: Build
    /** `appleStock`. */
    const stock: Stock
    /** `simAccount`. */
    const account: SimAccount
    /** `isSimulationRunning`. */
    var running: bool
    /** `candlesticks`: the completed bars. */
    var history: seq<Candlestick>
    /** `currentCandle`: the bar being built by the ticks. */
    var current: Candlestick
    /** `currentTrade`. */
    var trade: SimTrade?

    /** What every handler keeps: the live candle is not one of the
        completed ones; every bar is well formed; the bars follow on from one
        another, each opening at the previous close; the stock trades at the
        live candle's close, which is never negative; a trade that is held
        is active; and the first build, which has no trading, holds none. */
    ghost predicate Valid()
      reads this, stock, current, history, trade
    {
      && current !in history
      && (forall k :: 0 <= k < |history| ==> history[k].Snapshot().WellFormed())
      && current.Snapshot().WellFormed()
      && (forall k :: 0 < k < |history| ==> history[k].open == history[k - 1].close)
      && (|history| > 0 ==> current.open == history[|history| - 1].close)
      && stock.price == current.close && stock.price >= 0.0
      && (trade != null ==> trade.isActive)
      && (build == Typescript ==> trade == null)
    }

    /** The page's initial state: AAPL at 150, a live candle opened at that
        price at time `now`, no history, no trade, a zero account, stopped. */
    constructor(build: Build, now: int)
      ensures Valid() && fresh(stock) && fresh(current) && fresh(account)
      ensures this.build == build && !running && history == [] && trade == null
      ensures stock.symbol == "AAPL" && stock.price == 150.0
      ensures current.Snapshot() == Opened(150.0, now)
      ensures account.totalPnL == 0.0
    {
      this.build := build;
      var s := new Stock("AAPL", 150.0);
      stock := s;
      account := new SimAccount(0.0);
      running := false;
      history := [];
      current := new Candlestick(s.price, now);
      trade := null;
    }

    /** `updateTradeDisplay`: an active trade's profit and loss is
        recomputed at the current stock price, for the number of contracts
        the page shows now. */
    method RefreshProfitLoss(displayedContracts: int)
      modifies trade
      ensures trade != null && old(trade.isActive) ==>
        trade.profitLoss == ProfitLoss(trade.tradeDirection, stock.price, trade.entryPrice, displayedContracts)
      ensures trade != null && !old(trade.isActive) ==> trade.profitLoss == old(trade.profitLoss)
      ensures trade != null ==>
        trade.entryPrice == old(trade.entryPrice) && trade.isActive == old(trade.isActive)
        && trade.tradeDirection == old(trade.tradeDirection) && trade.contracts == old(trade.contracts)
    {
      if trade != null && trade.isActive {
        trade.profitLoss := ProfitLoss(trade.tradeDirection, stock.price, trade.entryPrice, displayedContracts);
      }
    }

    /** One firing of the trade interval. When the simulation is stopped it
        changes nothing. Otherwise one price change moves the stock and the
        live candle together, and the candle adds the traded volume; if the
        stock would go negative the setter throws before the candle is
        touched, so nothing changes. In the compiled build a held trade is
        then revalued. The two `Math.random()` values are `uVolume` and
        `uChange`. */
    method Tick(uVolume: real, uChange: real, displayedContracts: int) returns (r: Outcome)
      requires Valid() && IsUnit(uVolume) && IsUnit(uChange)
      modifies stock, current, trade
      ensures Valid()
      ensures !running ==> r == Pass
      ensures var change := TickChange(build, uChange);
        r.Fail? <==> running && old(stock.price) + change < 0.0
      ensures r.Fail? ==> r.error == NegativePrice
      ensures r.Fail? || !running ==>
        stock.price == old(stock.price) && current.Snapshot() == old(current.Snapshot())
        && (trade != null ==> trade.profitLoss == old(trade.profitLoss))
      ensures running && r.Pass? ==>
        var change := TickChange(build, uChange);
        && stock.price == old(stock.price) + change
        && current.Snapshot() == Updated(old(current.Snapshot()), change, DrawVolume(uVolume))
        && (trade != null ==>
              trade.profitLoss == ProfitLoss(trade.tradeDirection, stock.price, trade.entryPrice, displayedContracts))
      ensures trade != null ==>
        trade.entryPrice == old(trade.entryPrice) && trade.tradeDirection == old(trade.tradeDirection)
        && trade.isActive && trade.contracts == old(trade.contracts)
    {
      if !running {
        return Pass;
      }
      var tradeVolume := DrawVolume(uVolume);
      var priceChange := TickChange(build, uChange);
      r := stock.UpdatePrice(priceChange);
      if r.Fail? {
        return;
      }
      current.Update(priceChange, tradeVolume);
      UpdatedKeepsShape(old(current.Snapshot()), priceChange, tradeVolume);
      if trade != null {
        RefreshProfitLoss(displayedContracts);
      }
    }

    /** `handleCandleCompletion`: the live candle joins the history and a
        new candle opens at its close at time `now`. */
    method Rollover(now: int)
      requires Valid()
      modifies this
      ensures Valid()
      ensures history == old(history) + [old(current)]
      ensures fresh(current) && current.Snapshot() == Opened(old(current.close), now)
      ensures old(current).Snapshot() == old(current.Snapshot())
      ensures running == old(running) && trade == old(trade)
    {
      var completed := current;
      history := history + [completed];
      current := new Candlestick(completed.close, now);
    }

    /** The start/stop button. The running flag flips first. When it turns
        on, `simulateMarket` regenerates the history, and the live candle
        reopens at time `candleTime` at the last historical close, or at the
        stock price when there is no history. If `simulateMarket` throws, the
        flag stays flipped and nothing else changes. Stopping changes only
        the flag (the timers are not modelled). `barsToLoad` and
        `periodicity` are the page's inputs; `now`, `seed` and `draws` are
        the clock and the random values `simulateMarket` reads. */
    method ToggleSimulation(barsToLoad: int, periodicity: string, now: int, candleTime: int,
                            seed: real, draws: seq<BarDraw>)
        returns (r: Outcome)
      requires Valid() && IsUnit(seed) && ValidDraws(draws) && |draws| >= barsToLoad
      modifies this, stock
      ensures Valid()
      ensures running == !old(running) && trade == old(trade)
      ensures old(running) ==> r == Pass
      ensures r.Fail? || old(running) ==>
        history == old(history) && current == old(current) && stock.price == old(stock.price)
      ensures !old(running) ==>
        var h := MarketHistory(build, barsToLoad, periodicity, now, seed, draws);
        && (r.Fail? <==> h.Err?)
        && (r.Fail? ==> r.error == h.error)
        && (r.Pass? ==>
              && |history| == |h.value| && (forall k :: 0 <= k < |h.value| ==> history[k].Snapshot() == h.value[k])
              && fresh(current) && current.Snapshot() == Opened(LastClose(SeedPrice(seed), h.value), candleTime)
              && stock.price == LastClose(SeedPrice(seed), h.value))
    {
      running := !running;
      if !running {
        return Pass;
      }
      var generated := SimulateMarket(build, barsToLoad, periodicity, stock, now, seed, draws);
      if generated.Err? {
        return Fail(generated.error);
      }
      MarketHistoryChained(build, barsToLoad, periodicity, now, seed, draws);
      Restart(generated.value, MarketHistory(build, barsToLoad, periodicity, now, seed, draws).value, candleTime);
      r := Pass;
    }

    /** The tail of the start button: the generated candles become the
        history and the live candle opens at time `candleTime` at the last
        historical close, or at the stock price when there is no history. */
    method Restart(candlesticks: seq<Candlestick>, ghost bars: seq<Bar>, candleTime: int)
      requires |candlesticks| == |bars|
      requires forall k :: 0 <= k < |bars| ==> candlesticks[k].Snapshot() == bars[k]
      requires Chained(bars)
      requires |bars| > 0 ==> stock.price == bars[|bars| - 1].close
      requires stock.price >= 0.0
      requires (trade != null ==> trade.isActive) && (build == Typescript ==> trade == null)
      modifies this
      ensures Valid()
      ensures history == candlesticks && fresh(current)
      ensures current.Snapshot() == Opened(stock.price, candleTime)
      ensures running == old(running) && trade == old(trade)
    {
      var lastClose := if |candlesticks| > 0 then candlesticks[|candlesticks| - 1].close else stock.price;
      history := candlesticks;
      current := new Candlestick(lastClose, candleTime);
    }

    /** The buy (`long`) and sell buttons: a new active trade at the current
        stock price, showing no profit or loss, opens only when no active
        trade is held; otherwise nothing changes. `contracts` is the number
        the page read when it loaded; `displayedContracts` the number it
        shows now. The first build has no trading. */
    method OpenPosition(long: bool, contracts: int, displayedContracts: int) returns (entered: bool)
      requires Valid() && build == Compiled
      modifies this
      ensures Valid()
      ensures entered <==> old(trade) == null
      ensures entered ==>
        && trade != null && fresh(trade) && trade.isActive
        && trade.entryPrice == stock.price && trade.profitLoss == 0.0
        && trade.tradeDirection == long && trade.contracts == contracts
      ensures !entered ==> trade == old(trade)
      ensures history == old(history) && current == old(current) && running == old(running)
    {
      if trade == null || !trade.isActive {
        trade := new SimTrade(stock.price, 0.0, true, long, contracts);
        RefreshProfitLoss(displayedContracts);
        entered := true;
      } else {
        entered := false;
      }
    }

    /** The close button: an active trade's profit and loss is added to the
        account once, the trade is deactivated and dropped. Without one,
        nothing changes. */
    method ClosePosition() returns (closed: Option<SimTrade>)
      requires Valid()
      modifies this, account, trade
      ensures Valid()
      ensures closed.Some? <==> old(trade) != null
      ensures closed.Some? ==>
        && closed.value == old(trade) && trade == null && !closed.value.isActive
        && account.totalPnL == old(account.totalPnL) + old(trade.profitLoss)
        && closed.value.profitLoss == old(trade.profitLoss)
      ensures closed.None? ==> trade == null && account.totalPnL == old(account.totalPnL)
      ensures history == old(history) && current == old(current) && running == old(running)
    {
      if trade != null && trade.isActive {
        var held := trade;
        account.totalPnL := account.totalPnL + held.profitLoss;
        held.isActive := false;
        trade := null;
        closed := Some(held);
      } else {
        closed := None;
      }
    }
  }

  /** Pressing close twice settles a held trade's profit and loss once: the
      second press finds no trade and changes nothing. */
  method CloseTwiceSettlesOnce(s: Simulation)
    requires s.Valid()
    modifies s, s.account, s.trade
    ensures s.Valid() && s.trade == null
    ensures s.account.totalPnL
         == old(s.account.totalPnL) + (if old(s.trade) != null then old(s.trade.profitLoss) else 0.0)
  {
    var first := s.ClosePosition();
    var second := s.ClosePosition();
    assert second.None?;
  }
}
