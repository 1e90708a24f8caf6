# ETFPULSE dashboard core in Dafny

ETFPULSE is a single-page dashboard that simulates a live ETF market. The model covers
four parts of it:

- **Watchlist generation.** It starts from a fixed list of 24 seeds. Each seed gets a
  random percentage change in [-2, 2), a volume and a 20-sample price history.
- **Timer tick.** Every two seconds every record takes a random-walk step:
  - the price moves by at most 0.2% and never drops below 0.01;
  - the volume sometimes grows;
  - the history shifts by one sample;
  - the change statistics are recomputed against the implied session open
    `price - change`.
- **Ranking panels.** There are three: top gainers, top losers and volume leaders. Each is
  a stable-sorted copy of the watchlist cut to 8, 8 or 10 rows.
- **Analysis request and card rules.** The analysis request reduces the watchlist to three
  top-5 rankings and sends them to a text-generation service, falling back to a fixed
  neutral summary on any failure. A single-flight flag guards it. The per-card display
  rules are the volume tier, the gain/loss colour, the tick flash and the sign.

Modules:

- `Types` holds the records: `ETF`, `MarketTrend`, `MarketSummary`.
- `StableSort` models `[...xs].sort(cmp).slice(0, k)`. The sort is a stable insertion sort
  on sequences. `StableSortIsUnique` shows that any stable sort under the same comparator
  gives the same sequence. So the views do not depend on which stable sort a JavaScript
  engine uses; ECMA-262 requires `Array.prototype.sort` to be stable.
- `TickEngine` covers the seed list, `generateInitialData` and the per-record tick. Every
  `Math.random()` value is a parameter in [0, 1).
- `Rankings` covers the three panels of App.tsx.
- `MarketService` covers `analyzeMarket`. The service call is a function parameter from
  payload to outcome.
- `EtfCard` covers the classifiers of the card component.
- `AppState` holds the class `Dashboard`. It has the component's three pieces of state
  (`data`, `marketSummary`, `isAnalyzing`) and methods for a timer tick and for the two
  halves of the analysis handler.

App.tsx:79-80 divides by the implied open `price - change` without a guard. `TickRecord`
requires a non-zero open. `WellFormed` shows the open is positive from initialisation on
and that ticks keep it positive (`InitialOpenPositive`, `TickPreservesWellFormed`), so the
division never sees zero.

The view functions `Rankings.TopGainers`, `Rankings.TopLosers`, `Rankings.TopVolume`,
`MarketService.ServiceGainers`, `MarketService.ServiceLosers` and
`MarketService.ServiceMostActive` model App.tsx:112-122 and services/geminiService.ts:9-11
directly. Their own contracts give only the length; what they promise is stated by the
`*Spec` lemmas in the table below.

## Model

| member | source | states |
|---|---|---|
| TickEngine.Move | App.tsx:65-66 | the relative move lies in [-0.002, 0.002) and is zero exactly when the draw is 0.5 |
| TickEngine.VolumeTick | App.tsx:71 | the volume burst is a whole number in [0, 5000), and zero when the first draw is at most 0.5 |
| TickEngine.ShiftHistory | App.tsx:74 | the new history drops the oldest sample and ends with the new price; its length is kept for a non-empty history |
| TickEngine.TickRecord | App.tsx:64-90 | the new price is at least 0.01: the moved price, or 0.01 if the move would go below it. The dollar change moves by exactly the price difference, so the implied open is unchanged. The percentage is the change over that open times 100. The volume grows by less than 5000. The history is shifted. Symbol, name and sector are kept, and prevPrice is the old price |
| TickEngine.TickAll | App.tsx:63-91 | the tick keeps the collection's length and order, and record i is record i ticked with its own draws |
| TickEngine.TickPreservesWellFormed | App.tsx:63-91 | a tick keeps every record well formed: price at least 0.01, positive implied open, 20 history samples, volume not negative. It keeps the symbol sequence and never lowers a volume |
| TickEngine.ZeroMoveTick | App.tsx:66-88 | a tick that draws no move keeps the price and the dollar change, keeps a zero percentage at zero, and adds the drawn burst to the volume. The history still shifts, prevPrice is still set, and a non-zero percentage is recomputed (see `FirstTickRebasesPercent`) |
| TickEngine.InitialOpenPositive | App.tsx:38-39 | with a positive seed price and a percentage in [-2, 2), the implied open `p - p*cp/100` is positive, above 98% of the price |
| TickEngine.InitialRecord | App.tsx:37-50 | an initial record is well formed and carries the seed's identity, with price = prevPrice = the seed price. cp lies in [-2, 2), change = price * cp / 100, volume lies in [1e6, 51e6), and every history sample lies within 1 of the seed price |
| TickEngine.InitialEtfsWellFormed | App.tsx:9-34 | the seed list has 24 entries, each priced at least 0.01 |
| TickEngine.InitialData | App.tsx:37-51 | record i is `InitialRecord` of seed i with its own draws, so every field bound of `InitialRecord` holds per record. Seed order and symbols are kept, every record is well formed, and price and prevPrice start at the seed price |
| TickEngine.GenerateInitialData | App.tsx:36-52 | the initial watchlist has 24 well-formed records whose symbols are the seed symbols in seed order. Record i is `InitialRecord` of seed i, so its price and prevPrice are that seed's price |
| TickEngine.FirstTickRebasesPercent | App.tsx:38-80 | the initial percentage is taken against the seed price, but a tick measures against the implied open. So a first tick with no move turns cp into 100*cp/(100 - cp), which equals cp only when cp = 0 |
| StableSort.Compare | App.tsx:113 | the comparator is negative exactly when the first record's sort key is smaller, and zero exactly when the keys are equal |
| StableSort.InsertionSort | App.tsx:112-122 | the sorted copy is a permutation of the input and is ordered by the comparator |
| StableSort.InsertTies | App.tsx:112-122 | insertion puts a record ahead of the records with the same key, so each key's records keep their relative order |
| StableSort.InsertionSortIsStable | App.tsx:112-122 | the insertion sort is a stable sort: ordered, a permutation, and for every key the records with that key appear in input order |
| StableSort.SortedTiesDetermine | App.tsx:112-122 | two ordered sequences with the same records per key, in the same order, are equal |
| StableSort.StableSortIsUnique | App.tsx:112-122 | every stable sort of the input under the same comparator equals the insertion sort |
| StableSort.PrefixOfStableSort | App.tsx:112-122 | a prefix of a stable sort is ordered and drawn from the input, keeps each key's records in input order, and is not outranked by any record left out |
| StableSort.TopKSpec | App.tsx:112-122 | a sort-then-slice view is ordered, a sub-multiset of the input whose entries all occur in the input, a prefix of each key's records, and ranks no left-out record ahead of its entries |
| StableSort.TopKOfAnyStableSort | App.tsx:112-122 | slicing any stable sort of the input gives the same view as the model |
| Rankings.TopGainersSpec | App.tsx:112-114 | topGainers holds min(8, n) records of the watchlist in non-increasing changePercent order, ties in watchlist order, and none is below a record left out |
| Rankings.TopLosersSpec | App.tsx:116-118 | topLosers holds min(8, n) records of the watchlist in non-decreasing changePercent order, ties in watchlist order, and none is above a record left out |
| Rankings.TopVolumeSpec | App.tsx:120-122 | topVolume holds min(10, n) records of the watchlist in non-increasing volume order, ties in watchlist order, and none is below a record left out |
| Rankings.RankingsFromAnyStableSort | App.tsx:112-122 | for any stable sorts of the watchlist, each panel and each service ranking is the matching prefix of that sort |
| Rankings.ServiceRankingsArePanelPrefixes | services/geminiService.ts:9-11 | the service's five gainers and losers are the first five rows of the app's gainer and loser panels; its five most active are the first five volume leaders |
| MarketService.ServiceGainersSpec | services/geminiService.ts:9 | the service's gainers are min(5, n) records of the input in non-increasing changePercent order, ties in input order, and none is below a record left out |
| MarketService.ServiceLosersSpec | services/geminiService.ts:10 | the service's losers are min(5, n) records of the input in non-decreasing changePercent order, ties in input order, and none is above a record left out |
| MarketService.ServiceMostActiveSpec | services/geminiService.ts:11 | the service's most active are min(5, n) records of the input in non-increasing volume order, ties in input order, and none is below a record left out |
| MarketService.BuildPayload | services/geminiService.ts:13-17 | each payload list has min(5, n) entries. Entry i is the projection of ranking row i: (symbol, changePercent, volume) for gainers and losers, (symbol, volume) for the most active |
| MarketService.PayloadOrdered | services/geminiService.ts:14-16 | the payload lists keep the rankings' order, and every symbol in them belongs to a watchlist record |
| MarketService.AnalyzeMarket | services/geminiService.ts:33-62 | analyzeMarket always returns a summary. When the service returns non-empty text that parses, the result is the parsed value, unvalidated. Otherwise it is the fixed NEUTRAL fallback with key movers SPY and QQQ, and this includes the case where the call throws |
| EtfCard.FormatVolume | components/ETFCard.tsx:19-24 | the B, M and K tiers are chosen exactly for num at least 1e9, in [1e6, 1e9) and in [1e3, 1e6). Below 1e3 there is no suffix and the number is unscaled. The M and K scaled values lie in [1, 1000), and the scaled value times the tier unit is the number |
| EtfCard.ColorClass | components/ETFCard.tsx:11-12 | the card is green exactly when changePercent is at least 0, so zero counts as a gain, and red exactly when it is negative |
| EtfCard.FlashClass | components/ETFCard.tsx:14-16 | the flash is green exactly when the price rose since the previous tick, red exactly when it fell, and absent exactly when it held |
| EtfCard.ChangeSign | components/ETFCard.tsx:50 | "+" is shown exactly when the dollar change is strictly positive, so zero gets no sign |
| EtfCard.FlashFollowsMove | components/ETFCard.tsx:14-16 | after a tick the flash is green exactly when the move was up. It is red exactly when the move was down and the price was above the floor, and absent otherwise |
| EtfCard.TickedCardSignsAgree | components/ETFCard.tsx:11-50 | after a tick the percentage and the dollar change have the same sign, so "+" appears only on a green card |
| AppState.Dashboard.constructor | App.tsx:55-57 | mounting creates the generated watchlist (well formed, seed symbols in order), with no summary and no request in flight |
| AppState.Dashboard.Tick | App.tsx:61-97 | one interval callback replaces the watchlist with its ticked image. It keeps the dashboard invariant, never lowers a volume, and leaves the summary and the flag unchanged |
| AppState.Dashboard.BeginAnalyze | App.tsx:100-102 | a click starts a request exactly when none is in flight. The flag is up afterwards, the watchlist and summary are unchanged, the dashboard invariant is kept, and the request is made with the current watchlist |
| AppState.Dashboard.FinishAnalyze | App.tsx:103-108 | on settling, a result replaces the summary and a rejection leaves it unchanged. Either way the flag is lowered, the watchlist is untouched and the dashboard invariant is kept |
| AppState.SingleFlightScenario | App.tsx:100-109 | after mounting, the first click starts a request and a second click while it is outstanding starts none, even with a tick in between. What is shown at the end is exactly `analyzeMarket` of the mounted watchlist |

## Left out

- JSX layout, CSS classes other than the classifiers above, lucide icons, the recharts bar chart and components/Sparkline.tsx are presentation and are not modelled. `bgClass` and the sparkline colour use the same `isPositive` test as `ColorClass`.
- The text-generation client, the prompt text, the response schema, `JSON.stringify`/`JSON.parse` and the API key are a foreign network call and serialisation. The service is a function parameter returning `Threw` or `Returned(text, parsed)`, where `parsed` is `None` when parsing throws. An absent response text is the empty string.
- `MarketService.AnalyzeMarket`: the unvalidated parse result is limited to well-typed `MarketSummary` values. The source can return any JSON shape cast to `MarketSummary`.
- `Math.random()` is not modelled as a stream. Each draw is a parameter in [0, 1), grouped per record in the order the source consumes them.
- Arithmetic is exact (`real`). IEEE-754 rounding is not modelled, and the implied open is kept only in exact arithmetic. `toFixed` digit formatting is not modelled, so a formatted volume is its scaled value and tier suffix.
- `setInterval`/`clearInterval`, `Date` and `lastUpdated`, React hooks, memoisation and render scheduling are not modelled. A timer tick, a click and the settling of the request are explicit method calls. The stale closure over `isAnalyzing` in `handleAnalyze` is not modelled.
- `console.error` logging is not modelled.
- `TickEngine.GenerateInitialData`: the seed symbols are not proved pairwise distinct.
- The Volume Leaders table formatting in App.tsx is presentation and is not modelled. Its rows are `Rankings.TopVolume`.
