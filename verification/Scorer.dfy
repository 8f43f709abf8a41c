/** List generation (src/scorer.py): the gate, the floors, the ranking, and a cache of parsed bars
    shared by every track. Indicator formulas are parameters. */
module Scorer {
  import opened Domain
  import opened Exchange
  import opened CandleTable
  import opened Tracks
  import opened Rows
  import opened Ranking
  import opened Store
  import Wilson
  import Regime
  import Backtest

  const BTC_MARKET := "BTCUSDT"
  const REGIME_TRACK := "regime"

  /** The libraries: Ichimoku lines and RSI of a bar list, and the square root. */
  datatype Tools = Tools(ichimoku: seq<Candle> -> seq<IchimokuPoint>, rsi: seq<Candle> -> seq<Option<real>>,
                         sqrt: real -> real)
  {
    /** One Ichimoku point per bar. */
    ghost predicate Valid() {
      forall candles :: |ichimoku(candles)| == |candles|
    }
  }

  type Tables = map<Series, seq<Candle>>

  /** Rows come back by opening time, on their own timeframe. */
  ghost predicate Sound(candles: Tables) {
    forall s <- candles :: ByTime(candles[s]) && forall c <- candles[s] :: c.timeframe == s.timeframe
  }

  /** No bar closed at zero. Only the regime track divides by closes without looking. */
  ghost predicate Priced(candles: Tables) {
    forall s <- candles :: forall c <- candles[s] :: c.close != 0.0
  }

  lemma SoundSeries(candles: Tables, s: Series)
    requires Sound(candles)
    ensures Ascending(CloseTimes(StoredIn(candles, s)))
  {
    hide Length;
    var bars := StoredIn(candles, s);
    assert forall k :: 0 <= k < |bars| ==> bars[k] in bars;
    assert forall k :: 0 <= k < |bars| ==> CloseTimes(bars)[k] == bars[k].time + Length(s.timeframe);
  }

  lemma PricedSeries(candles: Tables, s: Series)
    requires Priced(candles)
    ensures var bars := StoredIn(candles, s);
            Regime.Divisible(Regime.Closes(bars)) && forall k :: 0 <= k < |bars| ==> bars[k].close != 0.0
  {
    var bars := StoredIn(candles, s);
    assert forall k :: 0 <= k < |bars| ==> bars[k] in bars;
  }

  // ---- the cache ---------------------------------------------------------------------------

  function Name(timeframe: Timeframe): string {
    match timeframe
    case M1 => "1m"
    case M15 => "15m"
    case M30 => "30m"
    case H1 => "1h"
    case H4 => "4h"
    case D1 => "1d"
    case W1 => "1w"
    case MO1 => "1M"
  }

  /** One dictionary holds both kinds of value, under pairs and under triples. */
  function BarsKey(s: Series): seq<string> { [s.market, Name(s.timeframe)] }

  function JudgingKey(s: Series): seq<string> { ["sim", s.market, Name(s.timeframe)] }

  lemma NamesDiffer(a: Timeframe, b: Timeframe)
    requires Name(a) == Name(b)
    ensures a == b
  {
    assert |Name(a)| == |Name(b)| && Name(a)[0] == Name(b)[0] && Name(a)[1] == Name(b)[1];
  }

  /** Whatever the markets are called, no two cache entries share a key. */
  lemma KeysApart(s: Series, t: Series)
    ensures BarsKey(s) == BarsKey(t) <==> s == t
    ensures JudgingKey(s) == JudgingKey(t) <==> s == t
    ensures BarsKey(s) != JudgingKey(t)
  {
    hide Name;
    assert |BarsKey(s)| != |JudgingKey(t)|;
    if BarsKey(s) == BarsKey(t) {
      assert BarsKey(s)[0] == BarsKey(t)[0] && BarsKey(s)[1] == BarsKey(t)[1];
      NamesDiffer(s.timeframe, t.timeframe);
    }
    if JudgingKey(s) == JudgingKey(t) {
      assert JudgingKey(s)[1] == JudgingKey(t)[1] && JudgingKey(s)[2] == JudgingKey(t)[2];
      NamesDiffer(s.timeframe, t.timeframe);
    }
  }

  datatype Cached = Analysed(candles: seq<Candle>, points: seq<IchimokuPoint>) | Judging(sim: SimSeries)

  function Analysis(tools: Tools, candles: Tables, s: Series): Cached {
    Analysed(StoredIn(candles, s), tools.ichimoku(StoredIn(candles, s)))
  }

  function JudgingOf(candles: Tables, s: Series): Cached {
    Judging(BuildSimSeries(StoredIn(candles, s)))
  }

  /** Every cached value is the one a fresh computation gives. */
  ghost predicate Faithful(entries: map<seq<string>, Cached>, tools: Tools, candles: Tables) {
    && (forall s :: BarsKey(s) in entries ==> entries[BarsKey(s)] == Analysis(tools, candles, s))
    && (forall s :: JudgingKey(s) in entries ==> entries[JudgingKey(s)] == JudgingOf(candles, s))
  }

  lemma FaithfulPut(entries: map<seq<string>, Cached>, tools: Tools, candles: Tables, s: Series)
    requires Faithful(entries, tools, candles)
    ensures Faithful(entries[BarsKey(s) := Analysis(tools, candles, s)], tools, candles)
    ensures Faithful(entries[JudgingKey(s) := JudgingOf(candles, s)], tools, candles)
  {
    hide BarsKey, JudgingKey, Analysis, JudgingOf;
    forall t
      ensures BarsKey(s) == BarsKey(t) <==> s == t
      ensures JudgingKey(s) == JudgingKey(t) <==> s == t
      ensures BarsKey(s) != JudgingKey(t) && BarsKey(t) != JudgingKey(s)
    {
      KeysApart(s, t);
      KeysApart(t, s);
    }
  }

  class Cache {
    var entries: map<seq<string>, Cached>

    constructor ()
      ensures entries == map[]
    {
      entries := map[];
    }
  }

  /** `_candles_and_points`. */
  method CandlesAndPoints(tools: Tools, store: DataStore, s: Series, cache: Cache?)
    returns (candles: seq<Candle>, points: seq<IchimokuPoint>)
    requires cache != null ==> Faithful(cache.entries, tools, store.candles)
    modifies cache
    ensures cache != null ==> Faithful(cache.entries, tools, store.candles)
    ensures candles == StoredIn(store.candles, s) && points == tools.ichimoku(candles)
  {
    if cache != null && BarsKey(s) in cache.entries {
      var hit := cache.entries[BarsKey(s)];
      return hit.candles, hit.points;
    }
    candles := store.Stored(s);
    points := tools.ichimoku(candles);
    if cache != null {
      FaithfulPut(cache.entries, tools, store.candles, s);
      cache.entries := cache.entries[BarsKey(s) := Analysed(candles, points)];
    }
  }

  /** `_sim_series`. */
  method SimSeriesOf(tools: Tools, store: DataStore, s: Series, cache: Cache?) returns (sim: SimSeries)
    requires cache != null ==> Faithful(cache.entries, tools, store.candles)
    modifies cache
    ensures cache != null ==> Faithful(cache.entries, tools, store.candles)
    ensures sim == BuildSimSeries(StoredIn(store.candles, s))
  {
    if cache != null && JudgingKey(s) in cache.entries {
      return cache.entries[JudgingKey(s)].sim;
    }
    sim := BuildSimSeries(store.Stored(s));
    if cache != null {
      FaithfulPut(cache.entries, tools, store.candles, s);
      cache.entries := cache.entries[JudgingKey(s) := Judging(sim)];
    }
  }

  // ---- one track -----------------------------------------------------------------------------

  /** Bitcoin's cloud state by closing time. */
  datatype Cloud = Cloud(times: seq<Time>, above: seq<bool>) {
    ghost predicate Valid() {
      |times| == |above| && NonDescending(times)
    }
  }

  /** `_btc_cloud_series`. */
  function BtcCloud(tools: Tools, candles: Tables): Cloud
    requires tools.Valid()
  {
    var bars := StoredIn(candles, Series(BTC_MARKET, H4));
    var points := tools.ichimoku(bars);
    Cloud(CloseTimes(bars), seq(|bars|, k requires 0 <= k < |bars| => AboveCloud(points[k])))
  }

  lemma CloudIsValid(tools: Tools, candles: Tables)
    requires tools.Valid() && Sound(candles)
    ensures BtcCloud(tools, candles).Valid()
  {
    SoundSeries(candles, Series(BTC_MARKET, H4));
  }

  /** The history behind one coin's candidacy, read straight from the tables. */
  function HistoryOf(tools: Tools, candles: Tables, market: string, spec: TrackSpec, cloud: Cloud): History {
    var bars := StoredIn(candles, Series(market, spec.timeframe));
    History(bars, tools.ichimoku(bars), spec, BuildSimSeries(StoredIn(candles, Series(market, spec.simTimeframe))),
            Some(EntryContext(cloud.times, cloud.above, tools.rsi(bars))))
  }

  lemma HistoryIsValid(tools: Tools, candles: Tables, market: string, spec: TrackSpec, cloud: Cloud)
    requires tools.Valid() && Sound(candles) && cloud.Valid() && spec.simTimeframe != M1
    ensures HistoryOf(tools, candles, market, spec, cloud).Valid()
  {
    SoundSeries(candles, Series(market, spec.timeframe));
    SoundSeries(candles, Series(market, spec.simTimeframe));
  }

  /** What one coin's own record makes of its newest bar: the bar signals, and the counted trades
      reach the track's sample and hit-rate floors. */
  ghost predicate Qualifies(h: History)
    requires h.Valid()
  {
    var log := TradeLog(h);
    && LatestEntry(h).Some?
    && |log| > 0 && |log| >= h.spec.minSamples
    && CountVerdicts(log, Win) as real / |log| as real >= h.spec.minHitRate
  }

  ghost function Offer(tools: Tools, h: History, market: string): Recommendation
    requires h.Valid() && Qualifies(h)
  {
    var log, entry := TradeLog(h), h.candles[|h.points| - 1];
    var wins := CountVerdicts(log, Win);
    Recommendation(market, |log|, wins, wins as real / |log| as real, Backtest.LowerBound(wins, |log|, tools.sqrt),
                   SumReturns(log) / |log| as real, Some(CloseTime(entry)), Some(entry.close), Some(WorstDrawdown(log)),
                   h.spec.key)
  }

  /** What each coin offers on a track, from nothing but its own tables. */
  ghost function TrackOwn(tools: Tools, candles: Tables, spec: TrackSpec,
                          cloud: Cloud): string -> Option<Recommendation>
    requires tools.Valid() && Sound(candles) && cloud.Valid() && spec.simTimeframe != M1
  {
    (market: string) =>
      HistoryIsValid(tools, candles, market, spec, cloud);
      var h := HistoryOf(tools, candles, market, spec, cloud);
      if Qualifies(h) then Some(Offer(tools, h, market)) else None
  }

  /** The statistics of the log decide, once the newest bar signals. */
  lemma OfferByStats(tools: Tools, h: History, market: string, stats: TrackStats)
    requires h.Valid() && LatestEntry(h).Some? && stats == TallyOf(TradeLog(h)).Stats()
    ensures Qualifies(h) <==>
            stats.n >= h.spec.minSamples && stats.hitRate.Some? && stats.hitRate.value >= h.spec.minHitRate
    ensures Qualifies(h) ==> stats.n > 0 && stats.hitRate.Some? && stats.expectedReturn.Some? && stats.maxDrawdown.Some?
    ensures Qualifies(h) ==>
              var entry := h.candles[|h.points| - 1];
              Offer(tools, h, market)
              == Recommendation(market, stats.n, stats.hitCount, stats.hitRate.value,
                                Backtest.LowerBound(stats.hitCount, stats.n, tools.sqrt), stats.expectedReturn.value,
                                Some(CloseTime(entry)), Some(entry.close), stats.maxDrawdown, h.spec.key)
  {
    hide TradeLog, LatestEntry, Backtest.LowerBound, Length;
  }

  /** The loop body of `generate_track_recommendations`. */
  method ConsiderMarket(tools: Tools, store: DataStore, market: string, spec: TrackSpec, cloud: Cloud, cache: Cache?)
    returns (offer: seq<Recommendation>)
    requires tools.Valid() && Sound(store.candles) && cloud.Valid() && spec.simTimeframe != M1
    requires cache != null ==> Faithful(cache.entries, tools, store.candles)
    modifies cache
    ensures cache != null ==> Faithful(cache.entries, tools, store.candles)
    ensures offer == Listed(TrackOwn(tools, store.candles, spec, cloud)(market))
  {
    hide Faithful, Sound, TradeLog, Backtest.LowerBound, EntryOk, AuxOk, Offer, TallyOf, CountUpTo, Length;
    HistoryIsValid(tools, store.candles, market, spec, cloud);
    var candles, points := CandlesAndPoints(tools, store, Series(market, spec.timeframe), cache);
    if points == [] || !EntryOk(points, |points| - 1, spec) {
      return [];
    }
    var context := EntryContext(cloud.times, cloud.above, tools.rsi(candles));
    if !AuxOk(Some(context), candles, |points| - 1) {
      return [];
    }
    var sim := SimSeriesOf(tools, store, Series(market, spec.simTimeframe), cache);
    var stats := ComputeTrackStats(History(candles, points, spec, sim, Some(context)));
    OfferByStats(tools, HistoryOf(tools, store.candles, market, spec, cloud), market, stats);
    hide Qualifies;
    if stats.n < spec.minSamples || stats.hitRate.None? {
      return [];
    }
    if stats.hitRate.value < spec.minHitRate {
      return [];
    }
    var entry := candles[|points| - 1];
    return [Recommendation(market, stats.n, stats.hitCount, stats.hitRate.value,
                           Backtest.LowerBound(stats.hitCount, stats.n, tools.sqrt), stats.expectedReturn.value,
                           Some(CloseTime(entry)), Some(entry.close), stats.maxDrawdown, spec.key)];
  }

  /** `generate_track_recommendations`: the list does not depend on the cache. */
  method GenerateTrackRecommendations(tools: Tools, store: DataStore, markets: seq<string>, spec: TrackSpec,
                                      given: Option<Cloud>, cache: Cache?) returns (list: seq<Recommendation>)
    requires tools.Valid() && Sound(store.candles) && spec.simTimeframe != M1
    requires given.Some? ==> given.value.Valid()
    requires cache != null ==> Faithful(cache.entries, tools, store.candles)
    modifies cache
    ensures cache != null ==> Faithful(cache.entries, tools, store.candles)
    ensures var cloud := if given.Some? then given.value else BtcCloud(tools, store.candles);
            cloud.Valid() && list == Ranked(Collect(markets, TrackOwn(tools, store.candles, spec, cloud)))
  {
    hide Faithful, Sound, TrackOwn, BtcCloud, Ranked;
    CloudIsValid(tools, store.candles);
    var cloud := if given.Some? then given.value else BtcCloud(tools, store.candles);
    var offers := [];
    for i := 0 to |markets|
      invariant cache != null ==> Faithful(cache.entries, tools, store.candles)
      invariant offers == Collect(markets[..i], TrackOwn(tools, store.candles, spec, cloud))
    {
      assert markets[..i + 1][..i] == markets[..i];
      var offer := ConsiderMarket(tools, store, markets[i], spec, cloud, cache);
      offers := offers + offer;
    }
    assert markets[..|markets|] == markets;
    list := Ranked(offers);
  }

  // ---- all tracks ------------------------------------------------------------------------------

  datatype MarketPhase = StrongBull | Bull | WeakBull | NotBull

  /** One list per track, each computed on its own without a cache. */
  ghost function AllTracks(tools: Tools, candles: Tables, markets: seq<string>, phase: Option<MarketPhase>,
                           limit: int): seq<seq<Recommendation>>
    requires tools.Valid() && Sound(candles)
  {
    CloudIsValid(tools, candles);
    seq(|TRACKS|, k requires 0 <= k < |TRACKS| =>
      if phase.None? || phase.value == NotBull then []
      else Slice(Ranked(Collect(markets, TrackOwn(tools, candles, TRACKS[k], BtcCloud(tools, candles)))), limit))
  }

  /** `generate_all_tracks`: one cache for all tracks gives the lists no cache would give. The
      lists stand in the order of TRACKS. */
  method GenerateAllTracks(tools: Tools, store: DataStore, markets: seq<string>, phase: Option<MarketPhase>, limit: int)
    returns (lists: seq<seq<Recommendation>>)
    requires tools.Valid() && Sound(store.candles)
    ensures lists == AllTracks(tools, store.candles, markets, phase, limit)
  {
    hide Sound, BtcCloud, TrackOwn, Collect, Ranked, Slice;
    lists := [];
    if phase.None? || phase.value == NotBull {
      for k := 0 to |TRACKS|
        invariant |lists| == k && forall j :: 0 <= j < k ==> lists[j] == []
      {
        lists := lists + [[]];
      }
      return;
    }
    CloudIsValid(tools, store.candles);
    var cloud := BtcCloud(tools, store.candles);
    var cache := new Cache();
    for k := 0 to |TRACKS|
      invariant Faithful(cache.entries, tools, store.candles)
      invariant |lists| == k
      invariant forall j :: 0 <= j < k ==>
                  lists[j] == Slice(Ranked(Collect(markets, TrackOwn(tools, store.candles, TRACKS[j], cloud))), limit)
    {
      var list := GenerateTrackRecommendations(tools, store, markets, TRACKS[k], Some(cloud), cache);
      lists := lists + [Slice(list, limit)];
    }
  }

  // ---- what the lists hold -----------------------------------------------------------------------

  /** What an offer promises its reader: the newest bar of the coin, a record that meets the
      track's floors, and a bound between zero and the hit rate. */
  lemma FloorsMet(tools: Tools, candles: Tables, spec: TrackSpec, cloud: Cloud, market: string)
    requires tools.Valid() && Sound(candles) && cloud.Valid() && spec.simTimeframe != M1
    requires forall x :: x >= 0.0 ==> Wilson.IsSqrt(tools.sqrt(x), x)
    ensures var offer, bars := TrackOwn(tools, candles, spec, cloud)(market),
            StoredIn(candles, Series(market, spec.timeframe));
            offer.Some? ==>
              && var rec := offer.value;
              && rec.market == market && rec.track == spec.key
              && rec.n > 0 && rec.n >= spec.minSamples && rec.hitRate >= spec.minHitRate
              && rec.hitCount <= rec.n && rec.hitRate == rec.hitCount as real / rec.n as real
              && 0.0 <= rec.hitRateLower <= rec.hitRate && rec.hitRateLower < 1.0
              && bars != []
              && rec.entryTime == Some(CloseTime(bars[|bars| - 1])) && rec.entryPrice == Some(bars[|bars| - 1].close)
  {
    hide Sound, Length, Wilson.WilsonLower, Wilson.Radicand, TradeLog, EntryOk, AuxOk, SumReturns, WorstDrawdown,
      BuildSimSeries, CloseTimes;
    HistoryIsValid(tools, candles, market, spec, cloud);
    var h := HistoryOf(tools, candles, market, spec, cloud);
    if Qualifies(h) {
      var rec := Offer(tools, h, market);
      RadicandNonNegative(rec.hitCount, rec.n);
      Wilson.BoundInRange(rec.hitCount, rec.n, Backtest.Z95,
                          tools.sqrt(Wilson.Radicand(Wilson.Ratio(rec.hitCount, rec.n), rec.n as real, Backtest.Z95)));
    }
  }

  lemma RadicandNonNegative(hits: nat, n: nat)
    requires 0 < n && hits <= n
    ensures Wilson.Radicand(Wilson.Ratio(hits, n), n as real, Backtest.Z95) >= 0.0
  {
    Wilson.RatioBounds(hits, n);
    var p := Wilson.Ratio(hits, n);
    hide Wilson.Ratio;
    Wilson.Product(p, 1.0 - p);
  }

  /** An offer names its coin and its track, and enters on the coin's newest bar. */
  lemma EntersOnNewestBar(tools: Tools, candles: Tables, spec: TrackSpec, cloud: Cloud, market: string)
    requires tools.Valid() && Sound(candles) && cloud.Valid() && spec.simTimeframe != M1
    ensures var offer, bars := TrackOwn(tools, candles, spec, cloud)(market),
            StoredIn(candles, Series(market, spec.timeframe));
            offer.Some? ==>
              && offer.value.market == market && offer.value.track == spec.key
              && bars != []
              && offer.value.entryTime == Some(CloseTime(bars[|bars| - 1]))
              && offer.value.entryPrice == Some(bars[|bars| - 1].close)
  {
    hide Sound, Length, TradeLog, Backtest.LowerBound, EntryOk, AuxOk, CountVerdicts, SumReturns, WorstDrawdown,
      BuildSimSeries, CloseTimes;
    HistoryIsValid(tools, candles, market, spec, cloud);
  }

  // ---- the regime track --------------------------------------------------------------------------

  type RegimeSeries = seq<(Time, Option<Regime.Label>)>

  function RegimeSeriesOf(candles: Tables): RegimeSeries
    requires Sound(candles) && Priced(candles)
  {
    SoundSeries(candles, Series(BTC_MARKET, H4));
    PricedSeries(candles, Series(BTC_MARKET, H4));
    Regime.SeriesOf(StoredIn(candles, Series(BTC_MARKET, H4)))
  }

  /** `check_market_regime`: the newest bar's label. */
  predicate RegimeOpen(series: RegimeSeries) {
    series != [] && series[|series| - 1].1.Some?
  }

  function SampleOf(tools: Tools, candles: Tables, market: string, series: RegimeSeries): Backtest.Sample {
    var bars := StoredIn(candles, Series(market, H1));
    Backtest.Sample(bars, tools.ichimoku(bars), series)
  }

  lemma SampleIsValid(tools: Tools, candles: Tables, market: string)
    requires Sound(candles) && Priced(candles)
    ensures SampleOf(tools, candles, market, RegimeSeriesOf(candles)).Valid()
  {
    hide Length;
    SoundSeries(candles, Series(BTC_MARKET, H4));
    PricedSeries(candles, Series(BTC_MARKET, H4));
    SoundSeries(candles, Series(market, H1));
    PricedSeries(candles, Series(market, H1));
    var stamps := Regime.Stamps(RegimeSeriesOf(candles));
    assert stamps == CloseTimes(StoredIn(candles, Series(BTC_MARKET, H4)));
  }

  /** The outcomes of the counted entries. */
  ghost function OutcomesIn(s: Backtest.Sample): seq<Backtest.TradeOutcome>
    requires s.Valid()
  {
    Backtest.PicksAreSpaced(s, |s.points|);
    Backtest.OutcomesOf(s, Backtest.Picks(s, |s.points|))
  }

  /** The newest bar signals and the record reaches the floors. */
  ghost predicate RegimeQualifies(s: Backtest.Sample)
    requires s.Valid()
  {
    var outcomes := OutcomesIn(s);
    && s.points != [] && Backtest.EntrySignal(s.candles, s.points, |s.points| - 1)
    && |outcomes| >= Backtest.MIN_SIGNAL_SAMPLES
    && Backtest.Wins(outcomes) as real / |outcomes| as real >= Backtest.MIN_HIT_RATE
  }

  ghost function RegimeOffer(tools: Tools, s: Backtest.Sample, market: string): Recommendation
    requires s.Valid() && RegimeQualifies(s)
  {
    var outcomes, entry := OutcomesIn(s), s.candles[|s.candles| - 1];
    var wins := Backtest.Wins(outcomes);
    Recommendation(market, |outcomes|, wins, wins as real / |outcomes| as real,
                   Backtest.LowerBound(wins, |outcomes|, tools.sqrt), Backtest.SumRet(outcomes) / |outcomes| as real,
                   Some(CloseTime(entry)), Some(entry.close), Some(Backtest.Worst(outcomes)), REGIME_TRACK)
  }

  ghost function RegimeOwn(tools: Tools, candles: Tables): string -> Option<Recommendation>
    requires Sound(candles) && Priced(candles)
  {
    (market: string) =>
      SampleIsValid(tools, candles, market);
      var s := SampleOf(tools, candles, market, RegimeSeriesOf(candles));
      if RegimeQualifies(s) then Some(RegimeOffer(tools, s, market)) else None
  }

  /** The regime track's list. */
  ghost function RegimeList(tools: Tools, candles: Tables, markets: seq<string>): seq<Recommendation>
    requires Sound(candles) && Priced(candles)
  {
    if RegimeOpen(RegimeSeriesOf(candles)) then Ranked(Collect(markets, RegimeOwn(tools, candles))) else []
  }

  /** The loop body of `generate_recommendations`. */
  method ConsiderForRegime(tools: Tools, store: DataStore, market: string, series: RegimeSeries)
      returns (offer: seq<Recommendation>)
    requires tools.Valid() && Sound(store.candles) && Priced(store.candles) && series == RegimeSeriesOf(store.candles)
    ensures offer == Listed(RegimeOwn(tools, store.candles)(market))
  {
    hide Sound, Priced, Backtest.LowerBound, Backtest.EntrySignal, RegimeSeriesOf, Backtest.Picks, Backtest.OutcomesOf,
      Backtest.Wins, Backtest.Worst, Backtest.SumRet;
    SampleIsValid(tools, store.candles, market);
    var candles := store.Stored(Series(market, H1));
    var points := tools.ichimoku(candles);
    if points == [] || !Backtest.EntrySignal(candles, points, |points| - 1) {
      return [];
    }
    var stats := Backtest.ComputeSignalStats(Backtest.Sample(candles, points, series), tools.sqrt);
    if stats.n < Backtest.MIN_SIGNAL_SAMPLES || stats.hitRate.None? || stats.hitRate.value < Backtest.MIN_HIT_RATE {
      return [];
    }
    var entry := candles[|candles| - 1];
    return [Recommendation(market, stats.n, stats.hitCount, stats.hitRate.value, stats.hitRateLower.value,
                           stats.expectedReturn.value,
                           Some(CloseTime(entry)), Some(entry.close), stats.maxDrawdown, REGIME_TRACK)];
  }

  /** `generate_recommendations`. */
  method GenerateRecommendations(tools: Tools, store: DataStore, markets: seq<string>)
      returns (list: seq<Recommendation>)
    requires tools.Valid() && Sound(store.candles) && Priced(store.candles)
    ensures list == RegimeList(tools, store.candles, markets)
  {
    hide Sound, Priced, RegimeOwn, Ranked;
    PricedSeries(store.candles, Series(BTC_MARKET, H4));
    var series := Regime.BuildRegimeSeries(store.Stored(Series(BTC_MARKET, H4)));
    if !RegimeOpen(series) {
      return [];
    }
    var offers := [];
    for i := 0 to |markets|
      invariant offers == Collect(markets[..i], RegimeOwn(tools, store.candles))
    {
      assert markets[..i + 1][..i] == markets[..i];
      var offer := ConsiderForRegime(tools, store, markets[i], series);
      offers := offers + offer;
    }
    assert markets[..|markets|] == markets;
    list := Ranked(offers);
  }
}
