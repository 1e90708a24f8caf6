/**
 * analyzeMarket (services/geminiService.ts): reduce the watchlist to its five top
 * gainers, losers and most active records, project them into the request payload,
 * and turn whatever the text-generation service does into a MarketSummary. The
 * service, the prompt around the payload and JSON (de)serialisation are outside the
 * model: the service is a function from payload to outcome.
 */
module MarketService {
  import opened Types
  import opened StableSort

  /** How many records of each ranking go into the payload. */
  const ServiceShown: nat := 5

  const FallbackMessage: string := "AI Analysis currently unavailable. Monitoring real-time data feeds."

  /** The summary returned whenever the analysis fails. */
  const Fallback: MarketSummary := MarketSummary(NEUTRAL, FallbackMessage, ["SPY", "QQQ"])

  /** A gainer or loser entry of the payload: symbol, change percent, volume. */
  datatype MoverEntry = MoverEntry(s: string, p: real, v: int)

  /** A most-active entry of the payload: symbol, volume. */
  datatype ActiveEntry = ActiveEntry(s: string, v: int)

  datatype Payload = Payload(topGainers: seq<MoverEntry>, topLosers: seq<MoverEntry>, mostActive: seq<ActiveEntry>)

  /** The five records with the highest change percent, highest first, ties in input order. */
  function ServiceGainers(etfs: seq<ETF>): (r: seq<ETF>)
    ensures |r| == Min(ServiceShown, |etfs|)
  {
    TopK(ByChangePercentDesc, etfs, ServiceShown)
  }

  /** The five records with the lowest change percent, lowest first, ties in input order. */
  function ServiceLosers(etfs: seq<ETF>): (r: seq<ETF>)
    ensures |r| == Min(ServiceShown, |etfs|)
  {
    TopK(ByChangePercentAsc, etfs, ServiceShown)
  }

  /** The five records with the highest volume, highest first, ties in input order. */
  function ServiceMostActive(etfs: seq<ETF>): (r: seq<ETF>)
    ensures |r| == Min(ServiceShown, |etfs|)
  {
    TopK(ByVolumeDesc, etfs, ServiceShown)
  }

  /** The service's gainers: min(5, n) records of the input, highest change percent first, ties in input order, none below a record left out. */
  lemma ServiceGainersSpec(etfs: seq<ETF>)
    ensures var g := ServiceGainers(etfs);
      && |g| == Min(ServiceShown, |etfs|)
      && (forall i :: 0 <= i < |g| ==> g[i] in etfs)
      && (forall i, j :: 0 <= i < j < |g| ==> g[i].changePercent >= g[j].changePercent)
      && (forall t :: Ties(ByChangePercentDesc, g, t) <= Ties(ByChangePercentDesc, etfs, t))
      && (forall e :: e in multiset(etfs) - multiset(g) ==>
            forall i :: 0 <= i < |g| ==> g[i].changePercent >= e.changePercent)
  {
    TopKSpec(ByChangePercentDesc, etfs, ServiceShown);
  }

  /** The service's losers: min(5, n) records of the input, lowest change percent first, ties in input order, none above a record left out. */
  lemma ServiceLosersSpec(etfs: seq<ETF>)
    ensures var l := ServiceLosers(etfs);
      && |l| == Min(ServiceShown, |etfs|)
      && (forall i :: 0 <= i < |l| ==> l[i] in etfs)
      && (forall i, j :: 0 <= i < j < |l| ==> l[i].changePercent <= l[j].changePercent)
      && (forall t :: Ties(ByChangePercentAsc, l, t) <= Ties(ByChangePercentAsc, etfs, t))
      && (forall e :: e in multiset(etfs) - multiset(l) ==>
            forall i :: 0 <= i < |l| ==> l[i].changePercent <= e.changePercent)
  {
    TopKSpec(ByChangePercentAsc, etfs, ServiceShown);
  }

  /** The service's most active: min(5, n) records of the input, highest volume first, ties in input order, none below a record left out. */
  lemma ServiceMostActiveSpec(etfs: seq<ETF>)
    ensures var a := ServiceMostActive(etfs);
      && |a| == Min(ServiceShown, |etfs|)
      && (forall i :: 0 <= i < |a| ==> a[i] in etfs)
      && (forall i, j :: 0 <= i < j < |a| ==> a[i].volume >= a[j].volume)
      && (forall t :: Ties(ByVolumeDesc, a, t) <= Ties(ByVolumeDesc, etfs, t))
      && (forall e :: e in multiset(etfs) - multiset(a) ==>
            forall i :: 0 <= i < |a| ==> a[i].volume >= e.volume)
  {
    TopKSpec(ByVolumeDesc, etfs, ServiceShown);
  }

  function AsMover(e: ETF): MoverEntry {
    MoverEntry(e.symbol, e.changePercent, e.volume)
  }

  function AsActive(e: ETF): ActiveEntry {
    ActiveEntry(e.symbol, e.volume)
  }

  /** The data context sent with the prompt: the three rankings, projected entry by entry. */
  function BuildPayload(etfs: seq<ETF>): (p: Payload)
    ensures |p.topGainers| == |p.topLosers| == |p.mostActive| == Min(ServiceShown, |etfs|)
    ensures forall i :: 0 <= i < |p.topGainers| ==> p.topGainers[i] == AsMover(ServiceGainers(etfs)[i])
    ensures forall i :: 0 <= i < |p.topLosers| ==> p.topLosers[i] == AsMover(ServiceLosers(etfs)[i])
    ensures forall i :: 0 <= i < |p.mostActive| ==> p.mostActive[i] == AsActive(ServiceMostActive(etfs)[i])
  {
    var g, l, a := ServiceGainers(etfs), ServiceLosers(etfs), ServiceMostActive(etfs);
    Payload(
      seq(|g|, i requires 0 <= i < |g| => AsMover(g[i])),
      seq(|l|, i requires 0 <= i < |l| => AsMover(l[i])),
      seq(|a|, i requires 0 <= i < |a| => AsActive(a[i])))
  }

  /** The payload lists keep the rankings' order and carry symbols of the watchlist. */
  lemma PayloadOrdered(etfs: seq<ETF>)
    ensures var p := BuildPayload(etfs);
      && (forall i, j :: 0 <= i < j < |p.topGainers| ==> p.topGainers[i].p >= p.topGainers[j].p)
      && (forall i, j :: 0 <= i < j < |p.topLosers| ==> p.topLosers[i].p <= p.topLosers[j].p)
      && (forall i, j :: 0 <= i < j < |p.mostActive| ==> p.mostActive[i].v >= p.mostActive[j].v)
    ensures var p := BuildPayload(etfs);
      && (forall i :: 0 <= i < |p.topGainers| ==> exists e :: e in etfs && e.symbol == p.topGainers[i].s)
      && (forall i :: 0 <= i < |p.topLosers| ==> exists e :: e in etfs && e.symbol == p.topLosers[i].s)
      && (forall i :: 0 <= i < |p.mostActive| ==> exists e :: e in etfs && e.symbol == p.mostActive[i].s)
  {
    var p := BuildPayload(etfs);
    var g, l, a := ServiceGainers(etfs), ServiceLosers(etfs), ServiceMostActive(etfs);
    TopKOrderedMembers(ByChangePercentDesc, etfs, ServiceShown);
    TopKOrderedMembers(ByChangePercentAsc, etfs, ServiceShown);
    TopKOrderedMembers(ByVolumeDesc, etfs, ServiceShown);
    forall i | 0 <= i < |p.topGainers| ensures exists e :: e in etfs && e.symbol == p.topGainers[i].s {
      assert g[i] in etfs && g[i].symbol == p.topGainers[i].s;
    }
    forall i | 0 <= i < |p.topLosers| ensures exists e :: e in etfs && e.symbol == p.topLosers[i].s {
      assert l[i] in etfs && l[i].symbol == p.topLosers[i].s;
    }
    forall i | 0 <= i < |p.mostActive| ensures exists e :: e in etfs && e.symbol == p.mostActive[i].s {
      assert a[i] in etfs && a[i].symbol == p.mostActive[i].s;
    }
  }

  /**
   * What the generateContent call does: throw, or return a response whose text may be
   * empty and whose JSON.parse may throw (parsed == None) or yield a summary. The parsed
   * summary is not validated against the schema.
   */
  datatype GenerateOutcome = Threw | Returned(text: string, parsed: Option<MarketSummary>)

  /** The analysis succeeds exactly when the service returns non-empty text that parses. */
  predicate Succeeded(out: GenerateOutcome) {
    out.Returned? && out.text != "" && out.parsed.Some?
  }

  /** analyzeMarket: never fails; on success the parsed output, otherwise the fallback. */
  function AnalyzeMarket(etfs: seq<ETF>, generate: Payload -> GenerateOutcome): (m: MarketSummary)
    ensures Succeeded(generate(BuildPayload(etfs))) ==> m == generate(BuildPayload(etfs)).parsed.value
    ensures !Succeeded(generate(BuildPayload(etfs))) ==> m == Fallback
    ensures generate(BuildPayload(etfs)).Threw? ==> m.trend == NEUTRAL && m.keyMovers == ["SPY", "QQQ"]
  {
    var out := generate(BuildPayload(etfs));
    match out
    case Threw => Fallback
    case Returned(text, parsed) =>
      if text != "" then
        match parsed
        case Some(summary) => summary
        case None => Fallback
      else Fallback
  }
}
