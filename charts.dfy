/** The geometry of `drawCandlesticks` in the compiled build: where the price
    gridlines, the entry-price line and each candle's wick, body and time
    label go on the canvas. Drawing calls become shapes in a `Frame`. */
module Charts {
  import opened Wrappers
  import opened Candles

  /** The fixed margins around the plot. */
  const Top: real := 50.0
  const Right: real := 20.0
  const Bottom: real := 50.0
  const Left: real := 50.0

  /** The number of intervals between the price gridlines. */
  const YAxisSteps: int := 10

  /** Every fifth bar carries a time label. */
  const LabelEvery: int := 5

  /** The height drawn into: the canvas height less the controls' height
      when the controls report a non-zero height. */
  function ChartHeight(canvasHeight: real, controls: real): (h: real)
    ensures controls == 0.0 ==> h == canvasHeight
    ensures h + controls == canvasHeight
  {
    if controls != 0.0 then canvasHeight - controls else canvasHeight
  }

  /** The highest high of a non-empty run of bars (`Math.max` over the highs). */
  function MaxHigh(bars: seq<Bar>): (m: real)
    requires bars != []
    ensures forall k :: 0 <= k < |bars| ==> bars[k].high <= m
    ensures exists k :: 0 <= k < |bars| && bars[k].high == m
    decreases |bars|
  {
    if |bars| == 1 then bars[0].high
    else
      var front := bars[..|bars| - 1];
      var m := MaxHigh(front);
      assert forall k :: 0 <= k < |front| ==> front[k] == bars[k];
      Max(m, bars[|bars| - 1].high)
  }

  /** The lowest low of a non-empty run of bars (`Math.min` over the lows). */
  function MinLow(bars: seq<Bar>): (m: real)
    requires bars != []
    ensures forall k :: 0 <= k < |bars| ==> m <= bars[k].low
    ensures exists k :: 0 <= k < |bars| && bars[k].low == m
    decreases |bars|
  {
    if |bars| == 1 then bars[0].low
    else
      var front := bars[..|bars| - 1];
      var m := MinLow(front);
      assert forall k :: 0 <= k < |front| ==> front[k] == bars[k];
      Min(m, bars[|bars| - 1].low)
  }

  /** The layout of one drawing: canvas width, chart height, the price
      range and the two scales. */
  datatype Plot = Plot(width: real, height: real, maxPrice: real, minPrice: real, yScale: real, xScale: real)
  {
    function DrawableHeight(): real { height - Top - Bottom }
    function DrawableWidth(): real { width - Left - Right }

    /** The price-to-pixel map of the candles and the entry line: prices
        grow upwards from the bottom. The top of the range is drawn on the
        top margin, and once the range fills the drawable height the map is
        the gridlines' one, which measures up from the bottom margin. */
    function Y(price: real): real { Top + (maxPrice - price) * yScale }

    /** The range and the scales agree: the price range fills the drawable
        height, and a scale that is positive makes the map decreasing. */
    predicate Scaled() {
      maxPrice > minPrice && yScale * (maxPrice - minPrice) == DrawableHeight()
    }
  }

  /** The layout `drawCandlesticks` computes. The division by the price range
      and by the number of bars needs a non-empty, non-flat run of bars; the
      scales are given by what they solve. */
  function Layout(width: real, canvasHeight: real, controls: real, bars: seq<Bar>): (p: Plot)
    requires bars != [] && MinLow(bars) < MaxHigh(bars)
    ensures p.width == width && p.height == ChartHeight(canvasHeight, controls)
    ensures p.maxPrice == MaxHigh(bars) && p.minPrice == MinLow(bars)
    ensures p.Scaled()
    ensures p.xScale == Ratio(p.DrawableWidth(), |bars| as real)
  {
    PlotFor(width, ChartHeight(canvasHeight, controls), MaxHigh(bars), MinLow(bars), |bars|)
  }

  /** The layout for a known price range and number of bars. */
  function PlotFor(width: real, height: real, maxPrice: real, minPrice: real, count: nat): (p: Plot)
    requires minPrice < maxPrice && count > 0
    ensures p.width == width && p.height == height
    ensures p.maxPrice == maxPrice && p.minPrice == minPrice
    ensures p.Scaled()
    ensures p.xScale == Ratio(p.DrawableWidth(), count as real)
  {
    var yScale := Ratio(height - Top - Bottom, maxPrice - minPrice);
    Plot(width, height, maxPrice, minPrice, yScale, Ratio(width - Left - Right, count as real))
  }

  /** A scale: what multiplies `b` into `a`. */
  function Ratio(a: real, b: real): (q: real)
    requires b != 0.0
    ensures q * b == a
  {
    a / b
  }

  /** The top of the price range is drawn on the top margin and the bottom
      on the bottom of the drawable area; with a positive drawable height a
      higher price is drawn strictly higher (smaller y), and every price in
      the range lands inside the drawable area. */
  lemma PriceMap(p: Plot, a: real, b: real)
    requires p.Scaled() && p.DrawableHeight() > 0.0
    ensures p.Y(p.maxPrice) == Top
    ensures p.Y(p.minPrice) == Top + p.DrawableHeight()
    ensures a < b ==> p.Y(b) < p.Y(a)
    ensures p.minPrice <= a <= p.maxPrice ==> Top <= p.Y(a) <= Top + p.DrawableHeight()
  {
    ScalePositive(p);
    MapEnds(p);
    if a < b {
      MapDecreasing(p, a, b);
    }
    if p.minPrice <= a <= p.maxPrice {
      MapWithinRange(p, a);
    }
  }

  /** The ends of the range are drawn at the top and the bottom of the plot. */
  lemma MapEnds(p: Plot)
    requires p.Scaled()
    ensures p.Y(p.maxPrice) == Top && p.Y(p.minPrice) == Top + p.DrawableHeight()
  {
    MapDifference(p, p.minPrice, p.maxPrice);
  }

  /** A range that fills a positive drawable height has a positive scale. */
  lemma ScalePositive(p: Plot)
    requires p.Scaled() && p.DrawableHeight() > 0.0
    ensures p.yScale > 0.0
  {
    if p.yScale <= 0.0 {
      NonPositiveProduct(p.yScale, p.maxPrice - p.minPrice);
    }
  }

  /** Under a positive scale a higher price is drawn strictly higher. */
  lemma MapDecreasing(p: Plot, a: real, b: real)
    requires p.yScale > 0.0 && a < b
    ensures p.Y(b) < p.Y(a)
  {
    var ya, yb := p.Y(a), p.Y(b);
    ScaledGap(p.maxPrice, a, b, p.yScale);
    assert ya == Top + (p.maxPrice - a) * p.yScale && yb == Top + (p.maxPrice - b) * p.yScale;
  }

  /** Scaling by a positive factor keeps a strict order. */
  lemma ScaledGap(m: real, a: real, b: real, s: real)
    requires s > 0.0 && a < b
    ensures (m - b) * s < (m - a) * s
  {
    PositiveProduct(b - a, s);
    assert (m - a) * s - (m - b) * s == (b - a) * s;
  }

  /** A price in the range is drawn inside the drawable height. */
  lemma MapWithinRange(p: Plot, a: real)
    requires p.Scaled() && p.yScale > 0.0 && p.minPrice <= a <= p.maxPrice
    ensures Top <= p.Y(a) <= Top + p.DrawableHeight()
  {
    var y := p.Y(a);
    NonNegativeProduct(p.maxPrice - a, p.yScale);
    NonNegativeProduct(a - p.minPrice, p.yScale);
    assert y == Top + (p.maxPrice - a) * p.yScale;
    assert y == Top + p.DrawableHeight() - (a - p.minPrice) * p.yScale;
  }

  lemma NonNegativeProduct(x: real, y: real)
    requires x >= 0.0 && y >= 0.0
    ensures x * y >= 0.0
  {
  }

  lemma NonPositiveProduct(x: real, y: real)
    requires x <= 0.0 && y >= 0.0
    ensures x * y <= 0.0
  {
    NonNegativeProduct(-x, y);
    assert x * y == -((-x) * y);
  }

  lemma PositiveProduct(x: real, y: real)
    requires x > 0.0 && y > 0.0
    ensures x * y > 0.0
  {
  }

  /** A horizontal price gridline at height `y` from `x1` to `x2`, with its
      price label drawn at `labelX`, left of the plot. */
  datatype Gridline = Gridline(price: real, y: real, x1: real, x2: real, labelX: real)

  /** Gridline i: price `min + i * (max - min) / 10`, drawn across the plot,
      its label 40 pixels left of the left margin. The first is at the
      lowest price, the last at the highest, and those between stay in the
      range. */
  function GridlineAt(p: Plot, i: int): (g: Gridline)
    ensures g.x1 == Left && g.x2 == p.width - Right && g.labelX == Left - 40.0
    ensures i == 0 ==> g.price == p.minPrice
    ensures i == YAxisSteps ==> g.price == p.maxPrice
    ensures 0 <= i <= YAxisSteps && p.minPrice <= p.maxPrice ==> p.minPrice <= g.price <= p.maxPrice
  {
    var increment := (p.maxPrice - p.minPrice) / YAxisSteps as real;
    var price := p.minPrice + i as real * increment;
    var g := Gridline(price, Top + p.DrawableHeight() - (price - p.minPrice) * p.yScale, Left, p.width - Right, Left - 40.0);
    if 0 <= i <= YAxisSteps && p.minPrice <= p.maxPrice then
      NonNegativeProduct(i as real, increment);
      NonNegativeProduct((YAxisSteps - i) as real, increment);
      g
    else
      g
  }

  /** The eleven gridlines of one drawing, bottom to top: their prices rise
      strictly when the range is not flat. */
  function Gridlines(p: Plot): (g: seq<Gridline>)
    ensures |g| == YAxisSteps + 1
    ensures forall i :: 0 <= i <= YAxisSteps ==> g[i] == GridlineAt(p, i)
    ensures p.minPrice < p.maxPrice ==> forall i, j :: 0 <= i < j <= YAxisSteps ==> g[i].price < g[j].price
  {
    GridlinesAscend(p);
    seq(YAxisSteps + 1, i => GridlineAt(p, i))
  }

  /** Gridline prices are `increment` apart, and the increment is positive
      for a range that is not flat. */
  lemma GridlinesAscend(p: Plot)
    ensures p.minPrice < p.maxPrice ==>
      forall i, j :: 0 <= i < j <= YAxisSteps ==> GridlineAt(p, i).price < GridlineAt(p, j).price
  {
    if p.minPrice < p.maxPrice {
      var increment := (p.maxPrice - p.minPrice) / YAxisSteps as real;
      forall i, j | 0 <= i < j <= YAxisSteps ensures GridlineAt(p, i).price < GridlineAt(p, j).price {
        assert GridlineAt(p, j).price - GridlineAt(p, i).price == (j - i) as real * increment;
        PositiveProduct((j - i) as real, increment);
      }
    }
  }

  /** Gridline i sits where the price map of the candles puts its price,
      i tenths of the drawable height above the bottom. */
  lemma GridlineGeometry(p: Plot, i: int)
    requires p.Scaled() && 0 <= i <= YAxisSteps
    ensures GridlineAt(p, i).y == p.Y(GridlineAt(p, i).price)
    ensures GridlineAt(p, i).y == Top + p.DrawableHeight() - i as real * p.DrawableHeight() / 10.0
  {
    var range := p.maxPrice - p.minPrice;
    var g := GridlineAt(p, i);
    var offset := i as real * (range / 10.0);
    assert g.price - p.minPrice == offset;
    assert offset * p.yScale == i as real * (p.yScale * range) / 10.0;
    assert p.Y(g.price) == Top + (range - offset) * p.yScale;
    assert (range - offset) * p.yScale == p.yScale * range - offset * p.yScale;
  }

  /** A filled rectangle: top-left corner, width and height. */
  datatype Rect = Rect(x: real, y: real, width: real, height: real)

  /** A time label: the bar's timestamp, drawn at (x, y). */
  datatype Label = Label(timestamp: int, x: real, y: real)

  /** One candle on the canvas: a vertical wick at `wickX` from `wickTop`
      down to `wickBottom`, a coloured body, and a time label on every
      fifth bar. */
  datatype CandleShape = CandleShape(wickX: real, wickTop: real, wickBottom: real, body: Rect,
                                     color: string, timeLabel: Option<Label>)

  /** The candle at position `index`: its slot starts `index` bar widths
      from the left margin; the body is 80% of a slot wide, spans the open
      and close and has the bar's colour; the wick runs from high to low
      through the middle of the body; only every fifth bar is labelled with
      its time, below the plot at the left of its slot. */
  function Shape(p: Plot, index: int, b: Bar): (s: CandleShape)
    ensures s.body.x == Left + index as real * p.xScale
    ensures s.wickX == s.body.x + s.body.width / 2.0
    ensures s.body.height >= 0.0
    ensures s.color == b.Color()
    ensures s.timeLabel.Some? <==> index % LabelEvery == 0
    ensures s.timeLabel.Some? ==> s.timeLabel.value == Label(b.timestamp, s.body.x, p.height - Bottom + 15.0)
  {
    var x := Left + index as real * p.xScale;
    var yOpen := p.Y(b.open);
    var yClose := p.Y(b.close);
    CandleShape(x + p.xScale / 2.0 * 0.8, p.Y(b.high), p.Y(b.low),
                Rect(x, Min(yOpen, yClose), p.xScale * 0.8, Abs(yOpen - yClose)),
                b.Color(),
                if index % LabelEvery == 0 then Some(Label(b.timestamp, x, p.height - Bottom + 15.0)) else None)
  }

  function Abs(a: real): real { if a < 0.0 then -a else a }

  /** Two prices are drawn their difference times the scale apart. */
  lemma MapDifference(p: Plot, a: real, b: real)
    ensures p.Y(a) - p.Y(b) == (b - a) * p.yScale
  {
  }

  /** Under a positive scale a higher or equal price is drawn no lower. */
  lemma MapMonotone(p: Plot, a: real, b: real)
    requires p.yScale > 0.0 && a <= b
    ensures p.Y(b) <= p.Y(a)
  {
    MapDifference(p, a, b);
    NonNegativeProduct(b - a, p.yScale);
  }

  /** For a well-formed bar under a positive scale the body lies within the
      wick: its top is where the higher of open and close is drawn, its
      height is the open-close distance times the scale, and the wick
      reaches at least from the body's top to its bottom. */
  lemma ShapeBodyWithinWick(p: Plot, index: int, b: Bar)
    requires p.yScale > 0.0 && b.WellFormed()
    ensures Shape(p, index, b).body.y == p.Y(Max(b.open, b.close))
    ensures Shape(p, index, b).body.height == Abs(b.close - b.open) * p.yScale
    ensures Shape(p, index, b).wickTop <= Shape(p, index, b).body.y
    ensures Shape(p, index, b).body.y + Shape(p, index, b).body.height <= Shape(p, index, b).wickBottom
  {
    var yOpen := p.Y(b.open);
    var yClose := p.Y(b.close);
    MapDifference(p, b.open, b.close);
    if b.open <= b.close {
      MapMonotone(p, b.open, b.close);
      NonNegativeProduct(b.close - b.open, p.yScale);
      assert Min(yOpen, yClose) == yClose && Abs(yOpen - yClose) == yOpen - yClose;
    } else {
      MapMonotone(p, b.close, b.open);
      assert Min(yOpen, yClose) == yOpen && Abs(yOpen - yClose) == yClose - yOpen;
      assert yClose - yOpen == (b.open - b.close) * p.yScale;
    }
    MapMonotone(p, Max(b.open, b.close), b.high);
    MapMonotone(p, b.low, Min(b.open, b.close));
  }

  /** With a positive bar width the wick lies strictly inside the body, and
      a candle's body ends before the slot of any candle to its right
      begins. */
  lemma ShapeSlots(p: Plot, index: int, b: Bar, later: int, next: Bar)
    requires p.xScale > 0.0 && index < later
    ensures Shape(p, index, b).body.x < Shape(p, index, b).wickX
            < Shape(p, index, b).body.x + Shape(p, index, b).body.width
    ensures Shape(p, index, b).body.x + Shape(p, index, b).body.width < Shape(p, later, next).body.x
  {
    var gap := (later - index - 1) as real;
    assert later as real * p.xScale == index as real * p.xScale + gap * p.xScale + p.xScale;
    NonNegativeProduct(gap, p.xScale);
  }

  /** The candles of one drawing, left to right: with a positive bar width
      no two bodies overlap. */
  function Shapes(p: Plot, bars: seq<Bar>): (s: seq<CandleShape>)
    ensures |s| == |bars|
    ensures forall k :: 0 <= k < |bars| ==> s[k] == Shape(p, k, bars[k])
    ensures p.xScale > 0.0 ==>
      forall j, k :: 0 <= j < k < |bars| ==> s[j].body.x + s[j].body.width < s[k].body.x
  {
    ShapesApart(p, bars);
    seq(|bars|, k requires 0 <= k < |bars| => Shape(p, k, bars[k]))
  }

  /** No two candle bodies of one drawing overlap under a positive bar width. */
  lemma ShapesApart(p: Plot, bars: seq<Bar>)
    ensures p.xScale > 0.0 ==> forall j, k :: 0 <= j < k < |bars| ==>
      Shape(p, j, bars[j]).body.x + Shape(p, j, bars[j]).body.width < Shape(p, k, bars[k]).body.x
  {
    if p.xScale > 0.0 {
      forall j, k | 0 <= j < k < |bars|
        ensures Shape(p, j, bars[j]).body.x + Shape(p, j, bars[j]).body.width < Shape(p, k, bars[k]).body.x
      {
        ShapeSlots(p, j, bars[j], k, bars[k]);
      }
    }
  }

  /** The part of an active trade the chart shows: its entry price and
      whether it is long. */
  datatype Position = Position(entryPrice: real, long: bool)

  /** The entry-price line across the plot, green for a long position and red
      for a short one, with its caption 5 pixels above it. */
  datatype EntryLine = EntryLine(y: real, x1: real, x2: real, color: string, captionY: real)

  function EntryLineFor(p: Plot, pos: Position): (e: EntryLine)
    ensures e.y == p.Y(pos.entryPrice) && e.captionY == e.y - 5.0
    ensures e.color == (if pos.long then "#00ff00" else "#ff0000")
    ensures e.x1 == Left && e.x2 == p.width - Right
  {
    var y := Top + (p.maxPrice - pos.entryPrice) * p.yScale;
    EntryLine(y, Left, p.width - Right, if pos.long then "#00ff00" else "#ff0000", y - 5.0)
  }

  /** The entry line sits at a gridline's height exactly when the entry is
      that gridline's price, and above (below) it for a higher (lower) entry. */
  lemma EntryLineAgainstGridlines(p: Plot, pos: Position, i: int)
    requires p.Scaled() && p.DrawableHeight() > 0.0 && 0 <= i <= YAxisSteps
    ensures EntryLineFor(p, pos).y == GridlineAt(p, i).y <==> pos.entryPrice == GridlineAt(p, i).price
    ensures EntryLineFor(p, pos).y < GridlineAt(p, i).y <==> pos.entryPrice > GridlineAt(p, i).price
  {
    GridlineGeometry(p, i);
    PriceMap(p, pos.entryPrice, GridlineAt(p, i).price);
    PriceMap(p, GridlineAt(p, i).price, pos.entryPrice);
  }

  /** Everything one call of `drawCandlesticks` puts on the canvas. */
  datatype Frame = Frame(plot: Plot, gridlines: seq<Gridline>, entry: Option<EntryLine>, candles: seq<CandleShape>)

  /** `drawCandlesticks`: the layout, then the gridline loop over i = 0..10,
      then the entry line when a trade is active, then one candle per bar.
      `width`, `canvasHeight` and `controls` are what the page reports;
      `position` is the active trade, if any. */
  method Draw(width: real, canvasHeight: real, controls: real, bars: seq<Bar>, position: Option<Position>)
      returns (f: Frame)
    requires bars != [] && MinLow(bars) < MaxHigh(bars)
    ensures f.plot == Layout(width, canvasHeight, controls, bars)
    ensures f.gridlines == Gridlines(f.plot)
    ensures f.entry == (if position.Some? then Some(EntryLineFor(f.plot, position.value)) else None)
    ensures f.candles == Shapes(f.plot, bars)
  {
    var p := Layout(width, canvasHeight, controls, bars);
    var gridlines := DrawGridlines(p);
    var entry: Option<EntryLine> := None;
    if position.Some? {
      entry := Some(EntryLineFor(p, position.value));
    }
    var candles := DrawCandles(p, bars);
    f := Frame(p, gridlines, entry, candles);
  }

  /** The gridline loop of `drawCandlesticks`, for i = 0 to 10. */
  method DrawGridlines(p: Plot) returns (gridlines: seq<Gridline>)
    ensures gridlines == Gridlines(p)
  {
    gridlines := [];
    var i := 0;
    while i <= YAxisSteps
      invariant 0 <= i <= YAxisSteps + 1
      invariant |gridlines| == i
      invariant forall j :: 0 <= j < i ==> gridlines[j] == GridlineAt(p, j)
    {
      gridlines := gridlines + [GridlineAt(p, i)];
      i := i + 1;
    }
    assert gridlines == Gridlines(p);
  }

  /** The `forEach` over the bars in `drawCandlesticks`. */
  method DrawCandles(p: Plot, bars: seq<Bar>) returns (candles: seq<CandleShape>)
    ensures candles == Shapes(p, bars)
  {
    candles := [];
    var index := 0;
    while index < |bars|
      invariant 0 <= index <= |bars|
      invariant |candles| == index
      invariant forall k :: 0 <= k < index ==> candles[k] == Shape(p, k, bars[k])
    {
      candles := candles + [Shape(p, index, bars[index])];
      index := index + 1;
    }
    assert candles == Shapes(p, bars);
  }
}
