/** What one pipeline run offers to the ledger: the regime list and the track lists, joined in the
    order `run_recommendation_pipeline` joins them (src/pipeline.py, src/scorer.py). */
module RunLists {
  import opened Domain
  import opened Exchange
  import opened Tracks
  import opened Rows
  import opened Ranking
  import opened Store
  import opened Scorer
  import opened Announcements
  import opened Pipeline
  import opened Ledger

  /** Everything the run generated, each list cut at the configured length. */
  ghost function Generated(tools: Tools, candles: Tables, markets: seq<string>, trackMarkets: seq<string>,
                           phase: Option<MarketPhase>, limit: int)
    : seq<Recommendation>
    requires tools.Valid() && Sound(candles) && Priced(candles)
  {
    Slice(RegimeList(tools, candles, markets), limit) + Flatten(AllTracks(tools, candles, trackMarkets, phase, limit))
  }

  /** The coin's newest stored bar, if any, closed within the announcement memory. */
  predicate Recent(candles: Tables, s: Series, now: Time) {
    var bars := StoredIn(candles, s);
    bars != [] ==> CloseTime(bars[|bars| - 1]) >= now - ANNOUNCE_MEMORY
  }

  /** A list of one track with at most one recent entry per coin. */
  ghost predicate OneTrack(list: seq<Recommendation>, track: string, now: Time) {
    && OnePerMarket(list)
    && forall rec <- list :: rec.track == track && rec.entryTime.Some? && rec.entryTime.value >= now - ANNOUNCE_MEMORY
  }

  lemma CurrentJoin(recs: seq<Recommendation>, list: seq<Recommendation>, track: string, now: Time)
    requires Current(recs, now) && OneTrack(list, track, now)
    requires forall rec <- recs :: rec.track != track
    ensures Current(recs + list, now)
  {
    var all := recs + list;
    forall i, j | 0 <= i < j < |all|
      ensures all[i].market != all[j].market || all[i].track != all[j].track
    {
      assert i < |recs| ==> recs[i] in recs;
      assert j >= |recs| ==> list[j - |recs|] in list;
    }
  }

  lemma RegimeListIsOneTrack(tools: Tools, candles: Tables, markets: seq<string>, limit: int, now: Time)
    requires tools.Valid() && Sound(candles) && Priced(candles) && Distinct(markets)
    requires forall market <- markets :: Recent(candles, Series(market, H1), now)
    ensures OneTrack(Slice(RegimeList(tools, candles, markets), limit), REGIME_TRACK, now)
  {
    hide Sound, Priced, Collect, Ranked, OnePerMarket, RegimeQualifies, RegimeSeriesOf, RegimeOpen;
    var own := RegimeOwn(tools, candles);
    if RegimeOpen(RegimeSeriesOf(candles)) {
      forall market
        ensures own(market).Some? ==> own(market).value.market == market && own(market).value.track == REGIME_TRACK
        ensures own(market).Some? && Recent(candles, Series(market, H1), now) ==>
                  own(market).value.entryTime.Some? && own(market).value.entryTime.value >= now - ANNOUNCE_MEMORY
      {
        SampleIsValid(tools, candles, market);
      }
      PublishedAreOwn(markets, own, limit);
    } else {
      EmptyIsOneTrack(REGIME_TRACK, now);
    }
  }

  lemma EmptyIsOneTrack(track: string, now: Time)
    ensures OneTrack([], track, now)
  {
  }

  lemma TrackListIsOneTrack(tools: Tools, candles: Tables, markets: seq<string>, phase: Option<MarketPhase>,
                            limit: int, k: nat, now: Time)
    requires tools.Valid() && Sound(candles) && Distinct(markets) && k < |TRACKS|
    requires forall market <- markets :: Recent(candles, Series(market, H4), now)
    ensures OneTrack(AllTracks(tools, candles, markets, phase, limit)[k], TRACKS[k].key, now)
  {
    hide Sound, Collect, Ranked, OnePerMarket, TrackOwn, BtcCloud, Slice, CloseTime;
    CloudIsValid(tools, candles);
    var cloud, spec := BtcCloud(tools, candles), TRACKS[k];
    if phase.Some? && phase.value != NotBull {
      var own := TrackOwn(tools, candles, spec, cloud);
      assert spec.timeframe == H4;
      forall market
        ensures own(market).Some? ==> own(market).value.market == market && own(market).value.track == spec.key
        ensures own(market).Some? && Recent(candles, Series(market, H4), now) ==>
                  own(market).value.entryTime.Some? && own(market).value.entryTime.value >= now - ANNOUNCE_MEMORY
      {
        EntersOnNewestBar(tools, candles, spec, cloud, market);
      }
      PublishedAreOwn(markets, own, limit);
    } else {
      EmptyIsOneTrack(spec.key, now);
    }
  }

  /** The lists of one run over fresh data never name the same coin and track twice and hold no
      entry older than the announcement memory: what `AnnouncedAtMostOnce` asks of a run. */
  lemma GeneratedIsCurrent(tools: Tools, candles: Tables, markets: seq<string>, trackMarkets: seq<string>,
                           phase: Option<MarketPhase>, limit: int, now: Time)
    requires tools.Valid() && Sound(candles) && Priced(candles) && Distinct(markets) && Distinct(trackMarkets)
    requires forall market <- markets :: Recent(candles, Series(market, H1), now)
    requires forall market <- trackMarkets :: Recent(candles, Series(market, H4), now)
    ensures Current(Generated(tools, candles, markets, trackMarkets, phase, limit), now)
  {
    hide Sound, Priced, Recent, RegimeList, AllTracks, Slice;
    var regime := Slice(RegimeList(tools, candles, markets), limit);
    RegimeListIsOneTrack(tools, candles, markets, limit, now);
    AllTracksLength(tools, candles, trackMarkets, phase, limit);
    var lists := AllTracks(tools, candles, trackMarkets, phase, limit);
    assert Current([], now);
    CurrentJoin([], regime, REGIME_TRACK, now);
    TrackListIsOneTrack(tools, candles, trackMarkets, phase, limit, 0, now);
    TrackListIsOneTrack(tools, candles, trackMarkets, phase, limit, 1, now);
    TrackListIsOneTrack(tools, candles, trackMarkets, phase, limit, 2, now);
    CurrentJoin(regime, lists[0], DAY_TRACK.key, now);
    CurrentJoin(regime + lists[0], lists[1], MID_TRACK.key, now);
    CurrentJoin(regime + lists[0] + lists[1], lists[2], LONG_TRACK.key, now);
    FlattenThree(regime, lists);
  }

  lemma AllTracksLength(tools: Tools, candles: Tables, markets: seq<string>, phase: Option<MarketPhase>, limit: int)
    requires tools.Valid() && Sound(candles)
    ensures |AllTracks(tools, candles, markets, phase, limit)| == 3
  {
  }

  lemma FlattenThree(regime: seq<Recommendation>, lists: seq<seq<Recommendation>>)
    requires |lists| == 3
    ensures regime + Flatten(lists) == regime + lists[0] + lists[1] + lists[2]
  {
    assert lists[..2][..1] == lists[..1] && lists[..1][..0] == [];
    assert Flatten(lists[..1]) == lists[0];
    assert Flatten(lists[..2]) == lists[0] + lists[1];
  }
}
