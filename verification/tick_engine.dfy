/**
 * The simulated market feed of App.tsx: the seed watchlist, the initial records drawn
 * from it, and the per-record random-walk tick applied to the whole collection every
 * two seconds. Every Math.random() call is a parameter: a real in [0, 1).
 * Arithmetic is exact; the floating-point rounding of App.tsx is not modelled.
 */
module TickEngine {
  import opened Types

  /** Largest relative move of one tick (0.2%). */
  const Volatility: real := 0.002
  /** A tick never takes a price below this floor. */
  const PriceFloor: real := 0.01
  /** Exclusive bound of a volume burst. */
  const VolumeBurstCap: int := 5000
  /** Number of samples in each record's price history. */
  const HistoryLength: nat := 20

  /** A value Math.random() can return. */
  predicate IsRandom(u: real) {
    0.0 <= u < 1.0
  }

  /** The draws one record's tick consumes, in the order the tick makes them. */
  datatype TickDraws = TickDraws(moveDraw: real, burstDraw: real, sizeDraw: real)

  predicate ValidTickDraws(d: TickDraws) {
    IsRandom(d.moveDraw) && IsRandom(d.burstDraw) && IsRandom(d.sizeDraw)
  }

  /** The relative price move: uniform over [-Volatility, Volatility). */
  function Move(d: TickDraws): (m: real)
    requires ValidTickDraws(d)
    ensures -Volatility <= m < Volatility
    ensures m == 0.0 <==> d.moveDraw == 0.5
  {
    d.moveDraw * Volatility * 2.0 - Volatility
  }

  /** The volume added by one tick: nothing half of the time, otherwise a whole number below the cap. */
  function VolumeTick(d: TickDraws): (v: int)
    requires ValidTickDraws(d)
    ensures 0 <= v < VolumeBurstCap
    ensures d.burstDraw <= 0.5 ==> v == 0
  {
    if d.burstDraw > 0.5 then (d.sizeDraw * 5000.0).Floor else 0
  }

  /** The session open the statistics are measured against, reconstructed from price and change. */
  function ImpliedOpen(e: ETF): real {
    e.price - e.change
  }

  /** `[...history.slice(1), x]`: drop the oldest sample, append x. */
  function ShiftHistory(h: seq<real>, x: real): (r: seq<real>)
    ensures |r| == if h == [] then 1 else |h|
    ensures r[|r| - 1] == x
    ensures forall i :: 0 <= i < |r| - 1 ==> r[i] == h[i + 1]
  {
    (if h == [] then [] else h[1..]) + [x]
  }

  function Max(a: real, b: real): real {
    if a >= b then a else b
  }

  /** One record after one tick. The division by the implied open is unguarded, as in the source. */
  function TickRecord(e: ETF, d: TickDraws): (r: ETF)
    requires ValidTickDraws(d)
    requires ImpliedOpen(e) != 0.0
    ensures r.price >= PriceFloor
    ensures e.price * (1.0 + Move(d)) >= PriceFloor ==> r.price == e.price * (1.0 + Move(d))
    ensures e.price * (1.0 + Move(d)) < PriceFloor ==> r.price == PriceFloor
    ensures r.change - e.change == r.price - e.price
    ensures ImpliedOpen(r) == ImpliedOpen(e)
    ensures r.changePercent == r.change / ImpliedOpen(r) * 100.0
    ensures e.volume <= r.volume < e.volume + VolumeBurstCap
    ensures r.history == ShiftHistory(e.history, r.price)
    ensures r.symbol == e.symbol && r.name == e.name && r.sector == e.sector
    ensures r.prevPrice == e.price
  {
    var newPrice := Max(PriceFloor, e.price * (1.0 + Move(d)));
    var volumeTick := VolumeTick(d);
    var newHistory := ShiftHistory(e.history, newPrice);
    var newChange := e.change + (newPrice - e.price);
    var originalOpen := e.price - e.change;
    var newChangePercent := ((newPrice - originalOpen) / originalOpen) * 100.0;
    e.(prevPrice := e.price, price := newPrice, change := newChange,
       changePercent := newChangePercent, volume := e.volume + volumeTick, history := newHistory)
  }

  /** The state every record keeps from initialisation on. */
  predicate WellFormed(e: ETF) {
    && e.price >= PriceFloor
    && ImpliedOpen(e) > 0.0
    && |e.history| == HistoryLength
    && e.volume >= 0
  }

  predicate AllTickDrawsValid(draws: seq<TickDraws>) {
    forall i :: 0 <= i < |draws| ==> ValidTickDraws(draws[i])
  }

  predicate AllOpensNonZero(data: seq<ETF>) {
    forall i :: 0 <= i < |data| ==> ImpliedOpen(data[i]) != 0.0
  }

  /** `prevData.map(...)`: every record advanced by its own draws, in place in the sequence. */
  function TickAll(data: seq<ETF>, draws: seq<TickDraws>): (r: seq<ETF>)
    requires |draws| == |data|
    requires AllTickDrawsValid(draws)
    requires AllOpensNonZero(data)
    ensures |r| == |data|
    ensures forall i :: 0 <= i < |r| ==> r[i] == TickRecord(data[i], draws[i])
  {
    seq(|data|, i requires 0 <= i < |data| => TickRecord(data[i], draws[i]))
  }

  function Symbols(data: seq<ETF>): (syms: seq<string>)
    ensures |syms| == |data|
    ensures forall i :: 0 <= i < |data| ==> syms[i] == data[i].symbol
  {
    if data == [] then [] else [data[0].symbol] + Symbols(data[1..])
  }

  /** A tick keeps every record well formed, keeps the symbols in order, and only grows volumes. */
  lemma TickPreservesWellFormed(data: seq<ETF>, draws: seq<TickDraws>)
    requires |draws| == |data|
    requires AllTickDrawsValid(draws)
    requires forall i :: 0 <= i < |data| ==> WellFormed(data[i])
    ensures AllOpensNonZero(data)
    ensures forall i :: 0 <= i < |data| ==> WellFormed(TickAll(data, draws)[i])
    ensures Symbols(TickAll(data, draws)) == Symbols(data)
    ensures forall i :: 0 <= i < |data| ==> data[i].volume <= TickAll(data, draws)[i].volume
  {
    var r := TickAll(data, draws);
    assert Symbols(r) == Symbols(data);
  }

  /** A tick that does not move the price keeps price and change, so with zero change the percentage stays zero. */
  lemma ZeroMoveTick(e: ETF, d: TickDraws)
    requires ValidTickDraws(d) && d.moveDraw == 0.5
    requires WellFormed(e)
    ensures TickRecord(e, d).price == e.price
    ensures TickRecord(e, d).change == e.change
    ensures e.change == 0.0 ==> TickRecord(e, d).changePercent == 0.0
    ensures TickRecord(e, d).volume == e.volume + VolumeTick(d)
  {
  }

  /** The fixed seed list: symbol, name, sector and seed price. */
  datatype Seed = Seed(s: string, n: string, sec: string, p: real)

  const SeedCount: nat := 24

  /** INITIAL_ETFS, entry by entry. */
  function SeedAt(i: int): Seed
    requires 0 <= i < SeedCount
  {
    match i
    case 0 => Seed("SPY", "SPDR S&P 500", "Equity", 512.30)
    case 1 => Seed("QQQ", "Invesco QQQ", "Tech", 440.50)
    case 2 => Seed("IWM", "Russell 2000", "Small Cap", 205.10)
    case 3 => Seed("EEM", "Emerging Mkts", "Global", 41.20)
    case 4 => Seed("XLF", "Financial Select", "Finance", 42.15)
    case 5 => Seed("XLK", "Technology Select", "Tech", 210.80)
    case 6 => Seed("XLE", "Energy Select", "Energy", 92.40)
    case 7 => Seed("XLV", "Health Care", "Health", 145.20)
    case 8 => Seed("GLD", "SPDR Gold", "Commodity", 215.00)
    case 9 => Seed("SLV", "iShares Silver", "Commodity", 24.50)
    case 10 => Seed("TLT", "20+ Year Treasury", "Bond", 94.30)
    case 11 => Seed("VXX", "Volatility Index", "Volatility", 14.20)
    case 12 => Seed("ARKK", "ARK Innovation", "Growth", 48.90)
    case 13 => Seed("SMH", "Semiconductor", "Tech", 225.60)
    case 14 => Seed("XBI", "Biotech", "Health", 92.10)
    case 15 => Seed("KWEB", "China Internet", "Global", 26.40)
    case 16 => Seed("EWJ", "MSCI Japan", "Global", 68.90)
    case 17 => Seed("VGK", "FTSE Europe", "Global", 65.20)
    case 18 => Seed("USO", "United States Oil", "Energy", 78.50)
    case 19 => Seed("JETS", "Global Jets", "Transport", 20.10)
    case 20 => Seed("XRT", "Retail", "Cons. Disc", 76.40)
    case 21 => Seed("XHB", "Homebuilders", "Cons. Disc", 105.20)
    case 22 => Seed("GDX", "Gold Miners", "Commodity", 32.10)
    case _ => Seed("HYG", "High Yield Bond", "Bond", 77.80)
  }

  function InitialEtfs(): seq<Seed> {
    seq(SeedCount, i requires 0 <= i < SeedCount => SeedAt(i))
  }

  /** The draws one record's initialisation consumes: percentage, volume, then one per history sample. */
  datatype InitDraws = InitDraws(percentDraw: real, volumeDraw: real, historyDraws: seq<real>)

  predicate ValidInitDraws(d: InitDraws) {
    && IsRandom(d.percentDraw)
    && IsRandom(d.volumeDraw)
    && |d.historyDraws| == HistoryLength
    && forall i :: 0 <= i < |d.historyDraws| ==> IsRandom(d.historyDraws[i])
  }

  /** The open implied by an initial record is positive: p - p * cp / 100 with cp in [-2, 2). */
  lemma InitialOpenPositive(p: real, cp: real)
    requires p > 0.0
    requires -2.0 <= cp < 2.0
    ensures p - p * (cp / 100.0) > 0.0
    ensures p - p * (cp / 100.0) > p * 0.98
  {
    assert p - p * (cp / 100.0) == p * (1.0 - cp / 100.0);
    assert 1.0 - cp / 100.0 > 0.98;
  }

  /** One seed turned into a record, as generateInitialData does. */
  function InitialRecord(seed: Seed, d: InitDraws): (e: ETF)
    requires seed.p >= PriceFloor
    requires ValidInitDraws(d)
    ensures WellFormed(e)
    ensures e.symbol == seed.s && e.name == seed.n && e.sector == seed.sec
    ensures e.price == seed.p && e.prevPrice == seed.p
    ensures -2.0 <= e.changePercent < 2.0
    ensures e.change == e.price * (e.changePercent / 100.0)
    ensures 1000000 <= e.volume < 51000000
    ensures forall i :: 0 <= i < |e.history| ==> seed.p - 1.0 <= e.history[i] < seed.p + 1.0
  {
    var changePercent := d.percentDraw * 4.0 - 2.0;
    var change := seed.p * (changePercent / 100.0);
    InitialOpenPositive(seed.p, changePercent);
    ETF(seed.s, seed.n, seed.sec, seed.p, change, changePercent,
        (d.volumeDraw * 50000000.0).Floor + 1000000,
        seq(HistoryLength, i requires 0 <= i < HistoryLength => seed.p + (d.historyDraws[i] * 2.0 - 1.0)),
        seed.p)
  }

  function SeedSymbols(seeds: seq<Seed>): (syms: seq<string>)
    ensures |syms| == |seeds|
    ensures forall i :: 0 <= i < |seeds| ==> syms[i] == seeds[i].s
  {
    if seeds == [] then [] else [seeds[0].s] + SeedSymbols(seeds[1..])
  }

  predicate SeedPricesAtLeastFloor(seeds: seq<Seed>) {
    forall i :: 0 <= i < |seeds| ==> seeds[i].p >= PriceFloor
  }

  /** The seed list has 24 entries and every seed price is above the floor. */
  lemma InitialEtfsWellFormed()
    ensures |InitialEtfs()| == SeedCount
    ensures SeedPricesAtLeastFloor(InitialEtfs())
  {
  }

  predicate AllInitDrawsValid(draws: seq<InitDraws>) {
    forall i :: 0 <= i < |draws| ==> ValidInitDraws(draws[i])
  }

  /** `INITIAL_ETFS.map(...)` over any list of seeds: one record per seed, in seed order. */
  function InitialData(seeds: seq<Seed>, draws: seq<InitDraws>): (data: seq<ETF>)
    requires |draws| == |seeds|
    requires SeedPricesAtLeastFloor(seeds)
    requires AllInitDrawsValid(draws)
    ensures |data| == |seeds|
    ensures Symbols(data) == SeedSymbols(seeds)
    ensures forall i :: 0 <= i < |data| ==> WellFormed(data[i])
    ensures forall i :: 0 <= i < |data| ==> data[i].price == data[i].prevPrice == seeds[i].p
    ensures forall i :: 0 <= i < |data| ==> data[i] == InitialRecord(seeds[i], draws[i])
  {
    var data := seq(|seeds|, i requires 0 <= i < |seeds| => InitialRecord(seeds[i], draws[i]));
    assert Symbols(data) == SeedSymbols(seeds);
    data
  }

  /** generateInitialData: the records of the fixed seed list. */
  function GenerateInitialData(draws: seq<InitDraws>): (data: seq<ETF>)
    requires |draws| == SeedCount
    requires AllInitDrawsValid(draws)
    ensures |data| == SeedCount
    ensures Symbols(data) == SeedSymbols(InitialEtfs())
    ensures forall i :: 0 <= i < |data| ==> WellFormed(data[i])
    ensures forall i :: 0 <= i < |data| ==> data[i].price == data[i].prevPrice == InitialEtfs()[i].p
    ensures (InitialEtfsWellFormed();
             forall i :: 0 <= i < |data| ==> data[i] == InitialRecord(InitialEtfs()[i], draws[i]))
  {
    InitialEtfsWellFormed();
    InitialData(InitialEtfs(), draws)
  }

  /**
   * The initial change is taken against the seed price, while a tick measures against the
   * implied open price - change. So a first tick that does not move the price still rewrites
   * a non-zero percentage cp as 100 * cp / (100 - cp).
   */
  lemma FirstTickRebasesPercent(seed: Seed, init: InitDraws, d: TickDraws)
    requires seed.p >= PriceFloor
    requires ValidInitDraws(init)
    requires ValidTickDraws(d) && d.moveDraw == 0.5
    ensures var e := InitialRecord(seed, init);
            TickRecord(e, d).changePercent == 100.0 * e.changePercent / (100.0 - e.changePercent)
    ensures var e := InitialRecord(seed, init);
            TickRecord(e, d).changePercent == e.changePercent <==> e.changePercent == 0.0
  {
    var e := InitialRecord(seed, init);
    var r := TickRecord(e, d);
    var p, cp := e.price, e.changePercent;
    var open := ImpliedOpen(e);
    assert open == p * ((100.0 - cp) / 100.0);
    assert r.change == p * (cp / 100.0);
    calc {
      r.changePercent;
      r.change / open * 100.0;
      (p * (cp / 100.0)) / (p * ((100.0 - cp) / 100.0)) * 100.0;
      { assert p * (cp / 100.0) == (p / 100.0) * cp && p * ((100.0 - cp) / 100.0) == (p / 100.0) * (100.0 - cp); }
      ((p / 100.0) * cp) / ((p / 100.0) * (100.0 - cp)) * 100.0;
      100.0 * cp / (100.0 - cp);
    }
    if r.changePercent == cp {
      assert 100.0 * cp == cp * (100.0 - cp);
      assert cp * cp == 0.0;
    }
  }
}
