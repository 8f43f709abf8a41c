/** What a published recommendation says, in numbers alone (src/scorer.py, src/tracks.py): when a coin
    is offered, and what each figure of the offer means. */
module OfferMeaning {
  import opened Domain
  import opened Tracks
  import opened TrackTheorems
  import opened TrackMeaning
  import opened Rows
  import opened Store
  import opened Scorer
  import Exchange
  import Wilson
  import Regime
  import Backtest
  import SampleMeaning

  // ---- the table of tracks -------------------------------------------------------------------

  /** Least hit rate of an offer, by key. */
  function FloorOf(track: string): real {
    if track == "day" then 0.25 else if track == "mid" then 0.20 else if track == "long" then 0.15 else 0.30
  }

  /** Three tracks on four-hour bars, judged on half hours; only the long one asks for the cloud, and
      each needs ten trades. */
  lemma TracksAre(spec: TrackSpec)
    ensures |TRACKS| == 3 && TRACKS[0].key == "day" && TRACKS[1].key == "mid" && TRACKS[2].key == "long"
    ensures spec in TRACKS ==>
              && (spec.key == "day" || spec.key == "mid" || spec.key == "long")
              && spec.timeframe == H4 && spec.simTimeframe == M30
              && (spec.requireAboveCloud <==> spec.key == "long")
              && spec.minSamples == 10 && spec.minHitRate == FloorOf(spec.key)
  {
    assert TRACKS == [DAY_TRACK, MID_TRACK, LONG_TRACK];
  }

  // ---- the bound -----------------------------------------------------------------------------

  /** The score test at 1.96 accepts x as the true ratio behind `hits` of n. */
  ghost predicate Compatible(hits: nat, n: nat, x: real)
    requires n > 0
  {
    var off := hits as real / n as real - x;
    n as real * (off * off) <= 3.8416 * (x * (1.0 - x))
  }

  /** The least ratio up to the observed one that the test accepts. */
  ghost predicate IsBound(hits: nat, n: nat, bound: real)
    requires n > 0
  {
    && 0.0 <= bound <= hits as real / n as real
    && forall x :: 0.0 <= x <= hits as real / n as real ==> (Compatible(hits, n, x) <==> bound <= x)
  }

  ghost predicate Rooted(sqrt: real -> real) {
    forall x :: x >= 0.0 ==> Wilson.IsSqrt(sqrt(x), x)
  }

  lemma ScoreIs(hits: nat, n: nat, x: real)
    requires n > 0
    ensures Wilson.Score(Wilson.Ratio(hits, n), Wilson.Level(n, 1.96), x) <= 0.0 <==> Compatible(hits, n, x)
  {
    var k, off, room, a := n as real, hits as real / n as real - x, x * (1.0 - x), Wilson.Level(n, 1.96);
    Wilson.LevelIs(n, 1.96);
    assert a * k == 3.8416;
    assert k * (off * off - a * room) == k * (off * off) - 3.8416 * room by {
      assert k * (a * room) == a * k * room;
    }
    Wilson.Product(k, off * off - a * room);
  }

  lemma NoTrials(sqrt: real -> real)
    ensures Backtest.LowerBound(0, 0, sqrt) == 0.0
  {
  }

  lemma BoundMeans(hits: nat, n: nat, sqrt: real -> real)
    requires n > 0 && hits <= n && Rooted(sqrt)
    ensures IsBound(hits, n, Backtest.LowerBound(hits, n, sqrt))
  {
    hide Wilson.WilsonLower, Wilson.Radicand, Wilson.Score, Wilson.Level, Compatible;
    RadicandNonNegative(hits, n);
    var root := sqrt(Wilson.Radicand(Wilson.Ratio(hits, n), n as real, 1.96));
    Wilson.BoundInRange(hits, n, 1.96, root);
    forall x | 0.0 <= x <= hits as real / n as real
      ensures Compatible(hits, n, x) <==> Backtest.LowerBound(hits, n, sqrt) <= x
    {
      ScoreIs(hits, n, x);
      Wilson.LeastCompatibleRatio(hits, n, 1.96, root, x);
    }
  }

  // ---- a track's offer -------------------------------------------------------------------------

  /** The trades of the log that ended so. */
  ghost function EndedAs(log: seq<Trade>, verdict: Verdict): set<nat> {
    set k | 0 <= k < |log| && log[k].outcome.verdict == verdict
  }

  lemma NoneEnded(verdict: Verdict)
    ensures EndedAs([], verdict) == {}
  {
  }

  lemma {:induction false} CountIs(log: seq<Trade>, verdict: Verdict)
    ensures CountVerdicts(log, verdict) == |EndedAs(log, verdict)|
  {
    hide EndedAs;
    if log == [] {
      NoneEnded(verdict);
    } else {
      CountIs(log[..|log| - 1], verdict);
      OneMoreEnded(log, verdict);
    }
  }

  lemma OneMoreEnded(log: seq<Trade>, verdict: Verdict)
    requires log != []
    ensures |EndedAs(log, verdict)|
            == |EndedAs(log[..|log| - 1], verdict)| + if log[|log| - 1].outcome.verdict == verdict then 1 else 0
  {
    var n := |log| - 1;
    var before, after := EndedAs(log[..n], verdict), EndedAs(log, verdict);
    assert n !in before;
    if log[n].outcome.verdict == verdict {
      assert after == before + {n};
    } else {
      assert after == before;
    }
  }

  /** Bitcoin's four-hour bars, each stamped with its closing time and whether it closed above both spans. */
  lemma CloudMeans(tools: Tools, candles: Tables, k: nat)
    requires tools.Valid() && k < |StoredIn(candles, Exchange.Series("BTCUSDT", H4))|
    ensures var bars, cloud := StoredIn(candles, Exchange.Series("BTCUSDT", H4)), BtcCloud(tools, candles);
            var point := tools.ichimoku(bars)[k];
            && |cloud.times| == |cloud.above| == |bars|
            && cloud.times[k] == CloseTime(bars[k])
            && (cloud.above[k] <==>
                  && point.senkouA.Some? && point.senkouB.Some?
                  && point.senkouA.value < point.close && point.senkouB.value < point.close)
  {
  }

  /** The offer's figures are those of the coin's own trades, and its entry is the newest bar. */
  ghost predicate Reports(h: History, market: string, rec: Recommendation) {
    h.Valid() && h.points != []
    && var log, entry := TradeLog(h), h.candles[|h.points| - 1];
       var hits, losses := |EndedAs(log, Win)|, |EndedAs(log, Loss)|;
    && rec.market == market && rec.track == h.spec.key
    && rec.entryTime == Some(CloseTime(entry)) && rec.entryPrice == Some(entry.close)
    && rec.n == |log| == hits + losses + |EndedAs(log, Timedout)| && rec.hitCount == hits
    && log != [] && rec.hitRate == hits as real / |log| as real
    && IsBound(hits, |log|, rec.hitRateLower)
    && rec.expectedReturn
       == (Times(hits, h.spec.target) - Times(losses, h.spec.stop) + SumTimeoutReturns(log)) / |log| as real
    && rec.maxDrawdown.Some?
    && (forall k :: 0 <= k < |log| ==> rec.maxDrawdown.value <= log[k].drawdown)
    && (exists k :: 0 <= k < |log| && rec.maxDrawdown.value == log[k].drawdown)
  }

  /** Wins pay the target, losses cost the stop. */
  ghost predicate Fixed(log: seq<Trade>, spec: TrackSpec) {
    forall k :: 0 <= k < |log| ==>
      && (log[k].outcome.verdict == Win ==> log[k].outcome.ret == spec.target)
      && (log[k].outcome.verdict == Loss ==> log[k].outcome.ret == -spec.stop)
  }

  lemma LogIsFixed(h: History)
    requires h.Valid()
    ensures Fixed(TradeLog(h), h.spec)
  {
    hide Plays, Holds, Dips, History.TradeAt, Judgeable, LogUpTo, Enters;
    forall k | 0 <= k < |TradeLog(h)|
      ensures Fixed([TradeLog(h)[k]], h.spec)
    {
      TradesAreRaces(h, k);
      var s: nat, j: nat :| Plays(h, TradeLog(h)[k], s, j);
      PlaysPay(h, TradeLog(h)[k], s, j);
    }
    assert forall k :: 0 <= k < |TradeLog(h)| ==> TradeLog(h)[k] == [TradeLog(h)[k]][0];
  }

  lemma PlaysPay(h: History, t: Trade, s: nat, j: nat)
    requires |h.points| <= |h.candles| && t.index < |h.points| && h.spec.simTimeframe != M1 && Plays(h, t, s, j)
    ensures Fixed([t], h.spec)
  {
    hide Holds, Dips, BarsFor;
  }

  lemma {:induction false} SumsAre(log: seq<Trade>, spec: TrackSpec)
    requires Fixed(log, spec)
    ensures var wins, losses, timeouts :=
            CountVerdicts(log, Win), CountVerdicts(log, Loss), CountVerdicts(log, Timedout);
            && |log| == wins + losses + timeouts
            && SumReturns(log) == Times(wins, spec.target) - Times(losses, spec.stop) + SumTimeoutReturns(log)
  {
    hide Times;
    TimesStep(0, spec.target);
    TimesStep(0, spec.stop);
    if log != [] {
      var front := log[..|log| - 1];
      SumsAre(front, spec);
      TimesStep(CountVerdicts(front, Win), spec.target);
      TimesStep(CountVerdicts(front, Loss), spec.stop);
    }
  }

  /** Entries and indicators come from the coin's four-hour bars, judging from its half hours. */
  ghost predicate ReadsTables(tools: Tools, candles: Tables, market: string, h: History) {
    var bars := StoredIn(candles, Exchange.Series(market, H4));
    && h.candles == bars && h.points == tools.ichimoku(bars)
    && h.sim.candles == StoredIn(candles, Exchange.Series(market, M30))
    && h.context.Some? && h.context.value.rsi == tools.rsi(bars)
  }

  lemma ReadsOwnTables(tools: Tools, candles: Tables, market: string, spec: TrackSpec, cloud: Cloud)
    requires spec in TRACKS
    ensures ReadsTables(tools, candles, market, HistoryOf(tools, candles, market, spec, cloud))
  {
    TracksAre(spec);
  }

  /** A coin is offered on a track exactly when its newest bar is an entry and its trades reach the
      track's floors. */
  lemma OfferedIff(tools: Tools, candles: Tables, spec: TrackSpec, cloud: Cloud, market: string)
    requires tools.Valid() && Sound(candles) && cloud.Valid() && spec in TRACKS && Rooted(tools.sqrt)
    ensures spec.simTimeframe != M1
    ensures var offer, h := TrackOwn(tools, candles, spec, cloud)(market),
            HistoryOf(tools, candles, market, spec, cloud);
            && h.Valid()
            && (offer.Some? <==>
                  && h.points != [] && Enters(h, |h.points| - 1)
                  && |TradeLog(h)| >= 10
                  && |EndedAs(TradeLog(h), Win)| as real >= FloorOf(spec.key) * |TradeLog(h)| as real)
            && (offer.Some? ==> Reports(h, market, offer.value))
  {
    hide Qualifies, Offer, Enters, Reports, TradeLog, EndedAs, Sound, FloorOf, HistoryOf;
    TracksAre(spec);
    HistoryIsValid(tools, candles, market, spec, cloud);
    var h := HistoryOf(tools, candles, market, spec, cloud);
    SpecOf(tools, candles, market, spec, cloud);
    QualifiesIff(h);
    if Qualifies(h) {
      OfferReports(tools, h, market);
    }
  }

  lemma SpecOf(tools: Tools, candles: Tables, market: string, spec: TrackSpec, cloud: Cloud)
    ensures HistoryOf(tools, candles, market, spec, cloud).spec == spec
  {
  }

  lemma RateAbove(hits: nat, n: nat, rate: real)
    requires n > 0
    ensures hits as real / n as real >= rate <==> hits as real >= rate * n as real
  {
    var p, k := hits as real / n as real, n as real;
    assert p * k == hits as real;
    assert k * (p - rate) == hits as real - rate * k;
    Wilson.Product(k, p - rate);
    Wilson.Product(k, rate - p);
  }

  lemma QualifiesIff(h: History)
    requires h.Valid() && h.spec in TRACKS
    ensures Qualifies(h) <==>
            && h.points != [] && Enters(h, |h.points| - 1)
            && |TradeLog(h)| >= 10
            && |EndedAs(TradeLog(h), Win)| as real >= FloorOf(h.spec.key) * |TradeLog(h)| as real
  {
    hide TradeLog, EntryOk, AuxOk, Enters, EndedAs, CountVerdicts, FloorOf;
    var log := TradeLog(h);
    TracksAre(h.spec);
    CountIs(log, Win);
    if h.points != [] {
      SignalsMeans(h);
      SignalsAre(h, |h.points| - 1);
    }
    if log != [] {
      RateAbove(CountVerdicts(log, Win), |log|, h.spec.minHitRate);
    }
  }

  lemma OfferReports(tools: Tools, h: History, market: string)
    requires h.Valid() && Qualifies(h) && Rooted(tools.sqrt) && h.spec in TRACKS
    ensures Reports(h, market, Offer(tools, h, market))
  {
    hide TradeLog, EntryOk, AuxOk, EndedAs, CountVerdicts, Backtest.LowerBound, IsBound, WorstDrawdown, SumReturns,
      SumTimeoutReturns, Times, Fixed;
    var log := TradeLog(h);
    CountIs(log, Win);
    CountIs(log, Loss);
    CountIs(log, Timedout);
    LogIsFixed(h);
    SumsAre(log, h.spec);
    BoundMeans(CountVerdicts(log, Win), |log|, tools.sqrt);
  }

  // ---- the regime track's offer ------------------------------------------------------------------

  /** The gate: bitcoin's newest four-hour bar is strong or a rebound. */
  lemma GateOpensIff(candles: Tables)
    requires Sound(candles) && Priced(candles)
    requires Regime.AllPositive(Regime.Closes(StoredIn(candles, Exchange.Series("BTCUSDT", H4))))
    ensures var closes := Regime.Closes(StoredIn(candles, Exchange.Series("BTCUSDT", H4)));
            RegimeOpen(RegimeSeriesOf(candles))
            <==> closes != [] && (Regime.IsStrong(closes, |closes| - 1) || Regime.IsRebound(closes, |closes| - 1))
  {
    hide Regime.LabelAt, Regime.IsStrong, Regime.IsRebound, Sound, Priced, Regime.AllPositive;
    PricedSeries(candles, Exchange.Series(BTC_MARKET, H4));
    var closes := Regime.Closes(StoredIn(candles, Exchange.Series("BTCUSDT", H4)));
    if closes != [] {
      Regime.LabelMeans(closes, |closes| - 1);
    }
  }

  /** The figures of a regime offer are those of the coin's own picks. */
  ghost predicate RegimeReports(s: Backtest.Sample, market: string, rec: Recommendation) {
    s.candles != []
    && var entry, picks := s.candles[|s.candles| - 1], Backtest.Picks(s, |s.points|);
    && rec.market == market && rec.track == "regime"
    && rec.entryTime == Some(CloseTime(entry)) && rec.entryPrice == Some(entry.close)
    && rec.n > 0 && IsBound(rec.hitCount, rec.n, rec.hitRateLower)
    && SampleMeaning.StatsAre(s.candles, picks,
                              Backtest.SignalStats(rec.n, rec.hitCount, Some(rec.hitRate), Some(rec.hitRateLower),
                                                   Some(rec.expectedReturn), rec.maxDrawdown))
  }

  /** A coin is offered on the regime track exactly when its newest bar is an entry and at least ten
      picks, 30% of them hits, are counted. */
  lemma RegimeOfferedIff(tools: Tools, s: Backtest.Sample, market: string)
    requires s.Valid() && |s.points| == |s.candles| && Rooted(tools.sqrt)
    ensures var picks := Backtest.Picks(s, |s.points|);
            var hits := |SampleMeaning.WonPicks(s.candles, picks)|;
            RegimeQualifies(s)
            <==> s.points != [] && SampleMeaning.Breaks(s.candles, s.points, |s.points| - 1)
                 && |picks| >= 10 && hits as real >= 0.3 * |picks| as real
    ensures RegimeQualifies(s) ==> RegimeReports(s, market, RegimeOffer(tools, s, market))
  {
    hide Backtest.EntrySignal, SampleMeaning.Breaks, Backtest.Picks, Backtest.OutcomesOf, Backtest.LowerBound,
      Backtest.Wins, Backtest.SumRet, Backtest.Worst, IsBound, SampleMeaning.WonPicks, SampleMeaning.LostPicks,
      SampleMeaning.RanOutPicks, SampleMeaning.DeepestOf, SampleMeaning.TimeoutReturns;
    var picks := Backtest.Picks(s, |s.points|);
    SampleMeaning.PublishedMeans(s, tools.sqrt);
    SampleMeaning.OutcomeForEach(s, picks);
    if s.points != [] {
      SampleMeaning.EntriesAre(s.candles, s.points, |s.points| - 1);
    }
    if picks != [] {
      var hits := Backtest.Wins(OutcomesIn(s));
      RateAbove(hits, |picks|, 0.3);
      BoundMeans(hits, |picks|, tools.sqrt);
    }
  }
}
