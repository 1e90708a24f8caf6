/**
 * The state App.tsx keeps: the watchlist, the latest market summary and the
 * "analysis in progress" flag. Timer ticks and the two halves of handleAnalyze (the
 * click that starts a request and the settling of its promise) are explicit events.
 */
module AppState {
  import opened Types
  import opened TickEngine
  import MarketService

  class Dashboard {
    var data: seq<ETF>
    var marketSummary: Option<MarketSummary>
    var isAnalyzing: bool

    /** The watchlist keeps the seed symbols in seed order and every record well formed. */
    ghost predicate Valid()
      reads this`data
    {
      && Symbols(data) == SeedSymbols(InitialEtfs())
      && forall i :: 0 <= i < |data| ==> WellFormed(data[i])
    }

    /** Mounting: the generated watchlist, no summary, no request in flight. */
    constructor (draws: seq<InitDraws>)
      requires |draws| == SeedCount
      requires AllInitDrawsValid(draws)
      ensures Valid()
      ensures data == GenerateInitialData(draws)
      ensures marketSummary == None && !isAnalyzing
    {
      data := GenerateInitialData(draws);
      marketSummary := None;
      isAnalyzing := false;
    }

    /** One interval callback: every record ticks; the summary and the flag are untouched. */
    method Tick(draws: seq<TickDraws>)
      requires Valid()
      requires |draws| == |data|
      requires AllTickDrawsValid(draws)
      modifies this
      ensures Valid()
      ensures |data| == |old(data)|
      ensures AllOpensNonZero(old(data)) && data == TickAll(old(data), draws)
      ensures forall i :: 0 <= i < |data| ==> old(data)[i].volume <= data[i].volume
      ensures marketSummary == old(marketSummary) && isAnalyzing == old(isAnalyzing)
    {
      TickPreservesWellFormed(data, draws);
      data := TickAll(data, draws);
    }

    /**
     * A click on the analysis button. While a request is in flight nothing changes and
     * no request is issued; otherwise the flag goes up and the current watchlist is the
     * snapshot the request is made with.
     */
    method BeginAnalyze() returns (started: bool, snapshot: seq<ETF>)
      requires Valid()
      modifies this
      ensures Valid()
      ensures started <==> !old(isAnalyzing)
      ensures isAnalyzing
      ensures data == old(data) && marketSummary == old(marketSummary)
      ensures snapshot == data
    {
      snapshot := data;
      if isAnalyzing {
        started := false;
        return;
      }
      started := true;
      isAnalyzing := true;
    }

    /**
     * The request settles. A result replaces the summary; a rejection (None) leaves it
     * as it was. Either way the `finally` block lowers the flag.
     */
    method FinishAnalyze(result: Option<MarketSummary>)
      requires Valid()
      requires isAnalyzing
      modifies this
      ensures Valid()
      ensures !isAnalyzing
      ensures marketSummary == (if result.Some? then result else old(marketSummary))
      ensures data == old(data)
    {
      if result.Some? {
        marketSummary := result;
      }
      isAnalyzing := false;
    }
  }

  /**
   * The single-flight scenario: a second click while the first request is outstanding
   * issues nothing and keeps the flag up; a tick meanwhile does not lower it; once the
   * first request settles, its outcome on the mounted watchlist is what is shown.
   */
  method SingleFlightScenario(init: seq<InitDraws>, ticks: seq<TickDraws>,
                              generate: MarketService.Payload -> MarketService.GenerateOutcome)
    returns (started: bool, again: bool, shown: MarketSummary)
    requires |init| == SeedCount && AllInitDrawsValid(init)
    requires |ticks| == SeedCount && AllTickDrawsValid(ticks)
    ensures started && !again
    ensures shown == MarketService.AnalyzeMarket(GenerateInitialData(init), generate)
  {
    var app := new Dashboard(init);
    var snapshot, ignored;
    started, snapshot := app.BeginAnalyze();
    again, ignored := app.BeginAnalyze();
    app.Tick(ticks);
    app.FinishAnalyze(Some(MarketService.AnalyzeMarket(snapshot, generate)));
    shown := app.marketSummary.value;
  }
}
