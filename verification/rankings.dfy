/**
 * The ranking panels of App.tsx: top gainers, top losers and volume leaders, each a
 * sorted copy of the watchlist cut to a fixed length. The watchlist itself is a value
 * here, so sorting a copy cannot reorder it.
 */
module Rankings {
  import opened Types
  import opened StableSort
  import MarketService

  const GainersShown: nat := 8
  const LosersShown: nat := 8
  const VolumeShown: nat := 10

  /** topGainers: the eight highest change percents, highest first, ties in watchlist order. */
  function TopGainers(data: seq<ETF>): (r: seq<ETF>)
    ensures |r| == Min(GainersShown, |data|)
  {
    TopK(ByChangePercentDesc, data, GainersShown)
  }

  /** topLosers: the eight lowest change percents, lowest first, ties in watchlist order. */
  function TopLosers(data: seq<ETF>): (r: seq<ETF>)
    ensures |r| == Min(LosersShown, |data|)
  {
    TopK(ByChangePercentAsc, data, LosersShown)
  }

  /** topVolume: the ten highest volumes, highest first, ties in watchlist order. */
  function TopVolume(data: seq<ETF>): (r: seq<ETF>)
    ensures |r| == Min(VolumeShown, |data|)
  {
    TopK(ByVolumeDesc, data, VolumeShown)
  }

  /** topGainers holds min(8, n) records of the watchlist, highest change percent first, ties in watchlist order, none outranked by a record left out. */
  lemma TopGainersSpec(data: seq<ETF>)
    ensures var r := TopGainers(data);
      && |r| == Min(GainersShown, |data|)
      && multiset(r) <= multiset(data)
      && (forall i, j :: 0 <= i < j < |r| ==> r[i].changePercent >= r[j].changePercent)
      && (forall t :: Ties(ByChangePercentDesc, r, t) <= Ties(ByChangePercentDesc, data, t))
      && (forall e :: e in multiset(data) - multiset(r) ==>
            forall i :: 0 <= i < |r| ==> r[i].changePercent >= e.changePercent)
  {
    TopKSpec(ByChangePercentDesc, data, GainersShown);
  }

  /** topLosers holds min(8, n) records of the watchlist, lowest change percent first, ties in watchlist order, none outranked by a record left out. */
  lemma TopLosersSpec(data: seq<ETF>)
    ensures var r := TopLosers(data);
      && |r| == Min(LosersShown, |data|)
      && multiset(r) <= multiset(data)
      && (forall i, j :: 0 <= i < j < |r| ==> r[i].changePercent <= r[j].changePercent)
      && (forall t :: Ties(ByChangePercentAsc, r, t) <= Ties(ByChangePercentAsc, data, t))
      && (forall e :: e in multiset(data) - multiset(r) ==>
            forall i :: 0 <= i < |r| ==> r[i].changePercent <= e.changePercent)
  {
    TopKSpec(ByChangePercentAsc, data, LosersShown);
  }

  /** topVolume holds min(10, n) records of the watchlist, highest volume first, ties in watchlist order, none outranked by a record left out. */
  lemma TopVolumeSpec(data: seq<ETF>)
    ensures var r := TopVolume(data);
      && |r| == Min(VolumeShown, |data|)
      && multiset(r) <= multiset(data)
      && (forall i, j :: 0 <= i < j < |r| ==> r[i].volume >= r[j].volume)
      && (forall t :: Ties(ByVolumeDesc, r, t) <= Ties(ByVolumeDesc, data, t))
      && (forall e :: e in multiset(data) - multiset(r) ==>
            forall i :: 0 <= i < |r| ==> r[i].volume >= e.volume)
  {
    TopKSpec(ByVolumeDesc, data, VolumeShown);
  }

  /**
   * Whatever stable sort the JavaScript engine uses, each panel and each service ranking
   * is a prefix of that engine's sorted copy.
   */
  lemma RankingsFromAnyStableSort(data: seq<ETF>, g: seq<ETF>, l: seq<ETF>, v: seq<ETF>)
    requires IsStableSortOf(ByChangePercentDesc, g, data)
    requires IsStableSortOf(ByChangePercentAsc, l, data)
    requires IsStableSortOf(ByVolumeDesc, v, data)
    ensures |g| == |l| == |v| == |data|
    ensures TopGainers(data) == g[..Min(GainersShown, |data|)]
    ensures TopLosers(data) == l[..Min(LosersShown, |data|)]
    ensures TopVolume(data) == v[..Min(VolumeShown, |data|)]
    ensures MarketService.ServiceGainers(data) == g[..Min(MarketService.ServiceShown, |data|)]
    ensures MarketService.ServiceLosers(data) == l[..Min(MarketService.ServiceShown, |data|)]
    ensures MarketService.ServiceMostActive(data) == v[..Min(MarketService.ServiceShown, |data|)]
  {
    TopKOfAnyStableSort(ByChangePercentDesc, data, g, GainersShown);
    TopKOfAnyStableSort(ByChangePercentAsc, data, l, LosersShown);
    TopKOfAnyStableSort(ByVolumeDesc, data, v, VolumeShown);
    TopKOfAnyStableSort(ByChangePercentDesc, data, g, MarketService.ServiceShown);
    TopKOfAnyStableSort(ByChangePercentAsc, data, l, MarketService.ServiceShown);
    TopKOfAnyStableSort(ByVolumeDesc, data, v, MarketService.ServiceShown);
  }

  /** The service's five gainers and losers are the first five rows of the panels; its most active, the first five volume leaders. */
  lemma ServiceRankingsArePanelPrefixes(data: seq<ETF>)
    ensures MarketService.ServiceGainers(data) == TopGainers(data)[..Min(MarketService.ServiceShown, |data|)]
    ensures MarketService.ServiceLosers(data) == TopLosers(data)[..Min(MarketService.ServiceShown, |data|)]
    ensures MarketService.ServiceMostActive(data) == TopVolume(data)[..Min(MarketService.ServiceShown, |data|)]
  {
    var m5, m8, m10 := Min(MarketService.ServiceShown, |data|), Min(GainersShown, |data|), Min(VolumeShown, |data|);
    var g := InsertionSort(ByChangePercentDesc, data);
    var l := InsertionSort(ByChangePercentAsc, data);
    var v := InsertionSort(ByVolumeDesc, data);
    assert TopGainers(data) == g[..m8] && MarketService.ServiceGainers(data) == g[..m5];
    assert TopLosers(data) == l[..m8] && MarketService.ServiceLosers(data) == l[..m5];
    assert TopVolume(data) == v[..m10] && MarketService.ServiceMostActive(data) == v[..m5];
  }
}
