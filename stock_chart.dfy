/**
  The deterministic rules of the stock chart component: the decorative price
  and volume series it fabricates, the two bars of the indicator chart with
  their colours, and the position of the price relative to the Bollinger bands.
  The random draws of the series are inputs; dates and two-decimal rounding
  are not modelled.
*/
module StockChart {
  import opened Wrappers
  import opened MarketData

  /** JavaScript truthiness of an optional number: absent and 0 are both false. */
  predicate Truthy(x: Option<real>) {
    x.Some? && x.value != 0.0
  }

  // ---------------------------------------------------------------------------
  // Mock historical series

  /** Days of history before today; the series has one point per day, today included. */
  const Days: nat := 30

  /** The draws of `Math.random()` that one step of the series consumes. */
  datatype Draws = Draws(change: real, sma14: real, sma20: real, volume: real)

  /** `Math.random()` returns a value in [0, 1). */
  predicate IsRandom(r: real) {
    0.0 <= r < 1.0
  }

  predicate ValidDraws(d: Draws) {
    IsRandom(d.change) && IsRandom(d.sma14) && IsRandom(d.sma20) && IsRandom(d.volume)
  }

  /** One point of the series; `daysAgo` stands for its date (today minus that many days). */
  datatype MockPoint = MockPoint(
    daysAgo: nat,
    price: real,
    sma14: Option<real>,
    sma20: Option<real>,
    volume: int)

  /** The next base price: a random move of at most 50 either way, but never below 80% of the last. */
  function NextBase(base: real, draw: real): (r: real)
    ensures r >= base * 0.8
    ensures r >= base + (draw - 0.5) * 100.0
    ensures r == base * 0.8 || r == base + (draw - 0.5) * 100.0
  {
    var moved := base + (draw - 0.5) * 100.0;
    if moved >= base * 0.8 then moved else base * 0.8
  }

  function LastOr(start: real, s: seq<real>): real {
    if s == [] then start else s[|s| - 1]
  }

  /** The base prices after each step, starting from `start` and applying `changes` in order. */
  function BasePath(start: real, changes: seq<real>): (r: seq<real>)
    ensures |r| == |changes|
    decreases |changes|
  {
    if changes == [] then []
    else
      var prev := BasePath(start, changes[..|changes| - 1]);
      prev + [NextBase(LastOr(start, prev), changes[|changes| - 1])]
  }

  /** Step `k` of the path is one `NextBase` from step `k - 1` (from `start` when `k` is 0). */
  lemma {:induction false} BasePathAt(start: real, changes: seq<real>, k: nat)
    requires k < |changes|
    ensures BasePath(start, changes)[k]
         == NextBase(if k == 0 then start else BasePath(start, changes)[k - 1], changes[k])
  {
    var m := |changes|;
    var init := changes[..m - 1];
    var prev := BasePath(start, init);
    assert BasePath(start, changes) == prev + [NextBase(LastOr(start, prev), changes[m - 1])];
    if k < m - 1 {
      BasePathAt(start, init, k);
    }
  }

  /** Each base price is at least 80% of the one before it. */
  lemma {:induction false} BasePathFloor(start: real, changes: seq<real>, k: nat)
    requires k < |changes|
    ensures BasePath(start, changes)[k]
         >= 0.8 * (if k == 0 then start else BasePath(start, changes)[k - 1])
  {
    BasePathAt(start, changes, k);
  }

  /** A positive starting price keeps every base price positive. */
  lemma {:induction false} BasePathPositive(start: real, changes: seq<real>, k: nat)
    requires start > 0.0
    requires k < |changes|
    ensures BasePath(start, changes)[k] > 0.0
  {
    BasePathFloor(start, changes, k);
    if k > 0 {
      BasePathPositive(start, changes, k - 1);
    }
  }

  /** An SMA line value: the indicator jittered by up to 25 either way, or none when the indicator is falsy. */
  function Jitter(sma: Option<real>, draw: real): (r: Option<real>)
    ensures r.Some? <==> Truthy(sma)
    ensures IsRandom(draw) && r.Some? ==> sma.value - 25.0 <= r.value < sma.value + 25.0
  {
    if Truthy(sma) then Some(sma.value + (draw - 0.5) * 50.0) else None
  }

  /** A bar of the volume chart: `floor(draw * 1000000) + 100000`. */
  function Volume(draw: real): (v: int)
    ensures IsRandom(draw) ==> 100000 <= v <= 1099999
  {
    (draw * 1000000.0).Floor + 100000
  }

  function Changes(draws: seq<Draws>): seq<real> {
    seq(|draws|, k requires 0 <= k < |draws| => draws[k].change)
  }

  /**
    The series drawn behind the price line: one point per day from `Days` days
    ago to today; the base price walks by `NextBase`, and today's point shows
    the current price itself.
  */
  method GenerateMockData(currentPrice: real, indicators: Indicators, draws: seq<Draws>)
    returns (points: seq<MockPoint>)
    requires |draws| == Days + 1
    requires forall k :: 0 <= k < |draws| ==> ValidDraws(draws[k])
    ensures |points| == Days + 1
    ensures points[Days].price == currentPrice
    ensures forall k :: 0 <= k < |points| ==> points[k].daysAgo == Days - k
    ensures forall k :: 0 <= k < Days ==> points[k].price == BasePath(currentPrice, Changes(draws))[k]
    ensures points[0].price >= 0.8 * currentPrice
    ensures forall k :: 0 < k < Days ==> points[k].price >= 0.8 * points[k - 1].price
    ensures currentPrice > 0.0 ==> forall k :: 0 <= k < |points| ==> points[k].price > 0.0
    ensures forall k :: 0 <= k < |points| ==>
      && points[k].volume == Volume(draws[k].volume)
      && 100000 <= points[k].volume <= 1099999
    ensures forall k :: 0 <= k < |points| ==>
      && points[k].sma14 == Jitter(indicators.sma14, draws[k].sma14)
      && points[k].sma20 == Jitter(indicators.sma20, draws[k].sma20)
  {
    ghost var path := BasePath(currentPrice, Changes(draws));
    points := [];
    var basePrice := currentPrice;
    var i: int := Days;
    while i >= 0
      invariant -1 <= i <= Days
      invariant |points| == Days - i
      invariant basePrice == if points == [] then currentPrice else path[|points| - 1]
      invariant forall k :: 0 <= k < |points| ==> points[k] == MockPoint(
        Days - k, path[k],
        Jitter(indicators.sma14, draws[k].sma14),
        Jitter(indicators.sma20, draws[k].sma20),
        Volume(draws[k].volume))
    {
      var d := draws[Days - i];
      BasePathAt(currentPrice, Changes(draws), Days - i);
      basePrice := NextBase(basePrice, d.change);
      points := points + [MockPoint(i, basePrice, Jitter(indicators.sma14, d.sma14),
                                    Jitter(indicators.sma20, d.sma20), Volume(d.volume))];
      i := i - 1;
    }
    points := points[Days := points[Days].(price := currentPrice)];
    BasePathFloor(currentPrice, Changes(draws), 0);
    forall k | 0 < k < Days
      ensures points[k].price >= 0.8 * points[k - 1].price
    {
      BasePathFloor(currentPrice, Changes(draws), k);
    }
    if currentPrice > 0.0 {
      forall k | 0 <= k < Days
        ensures points[k].price > 0.0
      {
        BasePathPositive(currentPrice, Changes(draws), k);
      }
    }
  }

  // ---------------------------------------------------------------------------
  // Indicator bars

  const Red := "#ef4444"
  const Green := "#22c55e"
  const Blue := "#3b82f6"

  datatype IndicatorBar = IndicatorBar(name: string, value: real, color: string)

  /** The RSI bar's length: `rsi_14 || 0`. */
  function RsiValue(rsi: Option<real>): (v: real)
    ensures rsi.None? ==> v == 0.0
    ensures rsi.Some? ==> v == rsi.value
  {
    if Truthy(rsi) then rsi.value else 0.0
  }

  /** Overbought red above 70, oversold green below 30, blue otherwise; an RSI of 0 counts as absent. */
  function RsiColor(rsi: Option<real>): (c: string)
    ensures c == Red <==> Truthy(rsi) && rsi.value > 70.0
    ensures c == Green <==> Truthy(rsi) && rsi.value < 30.0
    ensures c == Blue <==> !Truthy(rsi) || 30.0 <= rsi.value <= 70.0
  {
    if Truthy(rsi) && rsi.value > 70.0 then Red
    else if Truthy(rsi) && rsi.value < 30.0 then Green
    else Blue
  }

  /** The MACD bar's length: `macd?.macd || 0`. */
  function MacdValue(macd: Option<Macd>): (v: real)
    ensures macd.None? ==> v == 0.0
    ensures macd.Some? ==> v == macd.value.macd
  {
    if macd.Some? && macd.value.macd != 0.0 then macd.value.macd else 0.0
  }

  /** Green when the MACD line is above its signal line, red otherwise (and when absent). */
  function MacdColor(macd: Option<Macd>): (c: string)
    ensures c == Green <==> macd.Some? && macd.value.macd > macd.value.signal
    ensures c == Red <==> !(macd.Some? && macd.value.macd > macd.value.signal)
  {
    if macd.Some? && macd.value.macd > macd.value.signal then Green else Red
  }

  /** The data of the indicator bar chart: the RSI bar, then the MACD bar. */
  function IndicatorData(indicators: Indicators): (bars: seq<IndicatorBar>)
    ensures |bars| == 2
    ensures bars[0].name == "RSI" && bars[1].name == "MACD"
    ensures bars[0].value == indicators.rsi14.GetOr(0.0)
    ensures bars[1].value == if indicators.macd.Some? then indicators.macd.value.macd else 0.0
    ensures bars[0].color in {Red, Green, Blue} && bars[1].color in {Red, Green}
    ensures bars[0].color == RsiColor(indicators.rsi14) && bars[1].color == MacdColor(indicators.macd)
  {
    [ IndicatorBar("RSI", RsiValue(indicators.rsi14), RsiColor(indicators.rsi14)),
      IndicatorBar("MACD", MacdValue(indicators.macd), MacdColor(indicators.macd)) ]
  }

  // ---------------------------------------------------------------------------
  // Bollinger "Current Price Position"

  const AboveLabel := "Above Upper Band"
  const BelowLabel := "Below Lower Band"
  const WithinLabel := "Within Bands"

  const AboveClass := "text-red-400"
  const BelowClass := "text-green-400"
  const WithinClass := "text-blue-400"

  /** The label of the price's position: above the upper band is checked first. */
  function PositionLabel(price: real, bands: BollingerBands): (l: string)
    ensures l in {AboveLabel, BelowLabel, WithinLabel}
    ensures l == AboveLabel <==> price > bands.upperBand
    ensures l == BelowLabel <==> !(price > bands.upperBand) && price < bands.lowerBand
    ensures bands.lowerBand <= bands.upperBand ==>
      (l == WithinLabel <==> bands.lowerBand <= price <= bands.upperBand)
  {
    if price > bands.upperBand then AboveLabel
    else if price < bands.lowerBand then BelowLabel
    else WithinLabel
  }

  /** The colour class of the label, computed by its own copy of the same two comparisons. */
  function PositionClass(price: real, bands: BollingerBands): (c: string)
    ensures c in {AboveClass, BelowClass, WithinClass}
    ensures c == AboveClass <==> PositionLabel(price, bands) == AboveLabel
    ensures c == BelowClass <==> PositionLabel(price, bands) == BelowLabel
    ensures c == WithinClass <==> PositionLabel(price, bands) == WithinLabel
  {
    if price > bands.upperBand then AboveClass
    else if price < bands.lowerBand then BelowClass
    else WithinClass
  }
}
