/**
  The JSON payloads the dashboard receives from the market-data backend, as the
  `StockData`, `WatchlistData` and `StockChartProps` interfaces declare them.
  Every indicator is independently optional. Prices are `real`: the model
  ignores floating-point rounding.
*/
module MarketData {
  import opened Wrappers

  datatype Macd = Macd(macd: real, signal: real, histogram: real)

  datatype BollingerBands = BollingerBands(upperBand: real, middleBand: real, lowerBand: real)

  datatype Indicators = Indicators(
    rsi14: Option<real>,
    sma14: Option<real>,
    sma20: Option<real>,
    sma50: Option<real>,
    macd: Option<Macd>,
    bollingerBands: Option<BollingerBands>)

  datatype Signals = Signals(
    recommendation: string,
    buySignals: seq<string>,
    sellSignals: seq<string>)

  /** Analytics for one symbol, as returned by `/api/stocks/ltp/<symbol>`. */
  datatype StockData = StockData(
    symbol: string,
    currentPrice: real,
    indicators: Indicators,
    signals: Signals)

  datatype WatchlistIndicators = WatchlistIndicators(rsi: Option<real>, sma14: Option<real>)

  datatype WatchlistEntry = WatchlistEntry(
    currentPrice: real,
    indicators: WatchlistIndicators,
    recommendation: string,
    status: string)

  /** Watchlist analytics keyed by symbol; the keys are whatever the backend sent. */
  type Watchlist = map<string, WatchlistEntry>
}
