/** The records and enumerations the dashboard passes around (types.ts). */
module Types {

  datatype Option<+T> = None | Some(value: T)

  /** One tracked ticker: identity, the latest price and its derived statistics. */
  datatype ETF = ETF(
    symbol: string,
    name: string,
    sector: string,
    price: real,
    change: real,          // dollar change against the implied session open
    changePercent: real,   // percentage change against the implied session open
    volume: int,
    history: seq<real>,    // recent prices, oldest first, for the sparkline
    prevPrice: real)       // the price before the latest tick

  datatype MarketTrend = BULLISH | BEARISH | NEUTRAL

  /** The structured market analysis shown above the watchlist. */
  datatype MarketSummary = MarketSummary(trend: MarketTrend, summary: string, keyMovers: seq<string>)

  function Min(a: nat, b: nat): nat {
    if a <= b then a else b
  }
}
