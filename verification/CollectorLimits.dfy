/** How far the collector's promises reach (src/pipeline.py, src/binance_client.py): no cut within the
    shipped lookback, permanent holes beyond it, and lookbacks that are ignored. */
module CollectorLimits {
  import opened Domain
  import opened Exchange
  import opened CandleTable
  import opened Collector

  // ---- no cut within the shipped lookback ------------------------------------------------------

  /** The span that 600 pages of the shortest collected bars cover. */
  const GUARDED_SPAN: Time := 6243 * DAY

  /** A turn that reaches back at most 6243 days, from its target and from the last stored bar, is
      never cut by the page guard. */
  lemma NeverCut(bars: seq<Candle>, timeframe: Timeframe, t: Turn, later: Time)
    requires Printed(bars, timeframe) && timeframe != M1 && (bars != [] ==> bars[0].time >= 0)
    requires TurnIs(bars, t) && t.closedNow == ClosedBy(bars, later)
    requires QueryTime(t.start) <= later <= QueryTime(t.start) + GUARDED_SPAN
    requires t.before != [] ==>
               var last := t.before[|t.before| - 1].time;
               last <= later <= last + GUARDED_SPAN
    ensures !t.status.Cut()
  {
    hide QueryTime, OpenedBefore, ClosedBy, Length, Gap, PutAll, Settled;
    LookbackFits(bars, timeframe, t.start, later);
    if t.status.Extended? {
      var last := bars[t.k];
      assert t.k > 0 ==> bars[0].time < bars[t.k].time;
      CursorFinds(bars, timeframe, t.k);
      WholeMillisecond(last.time);
      LookbackFits(bars, timeframe, last.time, later);
    }
  }

  lemma WholeMillisecond(time: Time)
    requires time >= 0 && time % 1000 == 0
    ensures QueryTime(time) == time
  {
  }

  /** Within that span every turn keeps a contiguous history contiguous, and every turn that did
      not fail completes it. */
  lemma CollectionConverges(bars: seq<Candle>, timeframe: Timeframe, t: Turn, lo: nat, now: Time, later: Time)
    requires Printed(bars, timeframe) && timeframe != M1 && (bars != [] ==> bars[0].time >= 0)
    requires TurnIs(bars, t) && Sound(bars, t.before, now) && SliceAt(bars, t.before, lo)
    requires t.closedThen == ClosedBy(bars, now) && t.closedNow == ClosedBy(bars, later) && now <= later
    requires t.status.UpToDate? ==> t.after != [] && later < t.after[|t.after| - 1].time + 2 * Length(timeframe)
    requires CacheSound(bars, t.cachedAfter, t.start)
    requires QueryTime(t.start) <= later <= QueryTime(t.start) + GUARDED_SPAN
    requires t.before != [] ==> later <= t.before[|t.before| - 1].time + GUARDED_SPAN
    ensures Contiguous(bars, t.after)
    ensures !t.status.Failed? ==> Complete(bars, t.after, t.start, t.status.Until(timeframe, now))
  {
    hide QueryTime, OpenedBefore, ClosedBy, Length, Printed, Settled, CacheSound, Contiguous, Complete, SliceAt,
      Collected, Slack;
    if t.before != [] {
      assert t.before[|t.before| - 1] in t.before;
      ClosedHaveLength(t.before[|t.before| - 1], now);
    }
    NeverCut(bars, timeframe, t, later);
    CollectionTearsIff(bars, timeframe, t.before, t.after, lo, t.start, t.status, t.k, t.reach, t.closedNow, now);
    if !t.status.Failed? {
      CollectionCompletes(bars, timeframe, t.before, t.after, lo, t.start, t.status, t.k, t.reach, t.closedNow, now,
                          later,
                          t.cachedAfter);
    }
  }

  lemma ClosedHaveLength(bar: Candle, now: Time)
    requires CloseTime(bar) <= now
    ensures bar.time <= now
  {
  }

  // ---- two limits of the collector -----------------------------------------------------------

  /** A turn that does not backfill stores nothing between the old bars. */
  lemma OnlyLaterBars(bars: seq<Candle>, timeframe: Timeframe, t: Turn, missing: Candle)
    requires Printed(bars, timeframe) && t.before != []
    requires TurnIs(bars, t) && !t.status.Backfilled?
    requires missing !in t.before && missing.time <= t.before[|t.before| - 1].time
    ensures t.before <= t.after && missing !in t.after && missing.time <= t.after[|t.after| - 1].time
  {
    hide Length, Gap, Settled;
    if t.status.Extended? {
      forall i | 0 <= i < |t.after|
        ensures t.after[i] != missing && (i >= |t.before| ==> t.before[|t.before| - 1].time < t.after[i].time)
      {
        if i >= |t.before| {
          assert t.after[i] == bars[t.k + 1 + i - |t.before|];
          IndexOrder(bars, timeframe, t.k + 1 + i - |t.before|, t.k);
        }
      }
    }
  }

  /** Turns of one series, each over what the last one left, with targets that never move back. */
  ghost predicate Chain(bars: seq<Candle>, turns: seq<Turn>) {
    && (forall t <- turns :: TurnIs(bars, t))
    && (forall i :: 0 < i < |turns| ==>
          && turns[i].before == turns[i - 1].after && turns[i].cachedBefore == turns[i - 1].cachedAfter
          && turns[i - 1].start <= turns[i].start)
  }

  /** A hole is permanent: after a backfill every later turn only appends, however many there are,
      so a missing bar older than the last stored one is never stored. */
  lemma {:induction false} HolesPersist(bars: seq<Candle>, timeframe: Timeframe, turns: seq<Turn>, missing: Candle)
    requires Printed(bars, timeframe) && turns != [] && Chain(bars, turns)
    requires turns[0].status.Backfilled? && turns[0].after != []
    requires missing !in turns[0].after && missing.time <= turns[0].after[|turns[0].after| - 1].time
    ensures var last := turns[|turns| - 1];
            && turns[0].after <= last.after && Settled(last.after, last.cachedAfter, last.start)
            && missing !in last.after && missing.time <= last.after[|last.after| - 1].time
  {
    hide Collected, Printed;
    var front, last := turns[..|turns| - 1], turns[|turns| - 1];
    if front == [] {
      assert TurnIs(bars, turns[0]);
    } else {
      ChainFront(bars, turns);
      HolesPersist(bars, timeframe, front, missing);
      assert TurnIs(bars, last) && front[|front| - 1] == turns[|turns| - 2];
      OnlyLaterBars(bars, timeframe, last, missing);
      assert last.after[0] == last.before[0];
    }
  }

  lemma ChainFront(bars: seq<Candle>, turns: seq<Turn>)
    requires turns != [] && Chain(bars, turns)
    ensures Chain(bars, turns[..|turns| - 1])
  {
    hide TurnIs;
  }

  /** A backfill cut before it reaches the stored bars tears the history for good: the first bar
      beyond the guard is never stored, and the store is never contiguous again. */
  lemma TornForGood(bars: seq<Candle>, timeframe: Timeframe, turns: seq<Turn>, lo: nat, now: Time)
    requires Printed(bars, timeframe) && (bars != [] ==> bars[0].time >= 0) && turns != [] && Chain(bars, turns)
    requires var t := turns[0];
             && Sound(bars, t.before, now) && SliceAt(bars, t.before, lo) && t.before != []
             && t.closedThen == ClosedBy(bars, now) && t.status == Backfilled(true)
             && OpenedBefore(bars, QueryTime(t.start)) + 599_401 < lo
    ensures var last := turns[|turns| - 1];
            && bars[OpenedBefore(bars, QueryTime(turns[0].start)) + 599_401] !in last.after
            && !Contiguous(bars, last.after)
  {
    hide QueryTime, OpenedBefore, ClosedBy, Length, Gap, PutAll, Printed, Sound, Contiguous, Settled;
    var t := turns[0];
    assert TurnIs(bars, t);
    var a, hi := OpenedBefore(bars, QueryTime(t.start)), lo + |t.before|;
    SlicesApart(bars, timeframe, lo, hi, a, t.reach);
    var torn := bars[a..t.reach] + bars[lo..hi];
    assert t.after == torn && torn[0] == bars[a] && torn[t.reach - a] == bars[lo] && torn[|torn| - 1] == bars[hi - 1];
    TornMisses(bars, timeframe, lo, hi, a, t.reach);
    IndexOrder(bars, timeframe, t.reach, hi - 1);
    HolesPersist(bars, timeframe, turns, bars[t.reach]);
    var last := turns[|turns| - 1].after;
    assert last[0] == bars[a] && last[t.reach - a] == bars[lo];
    ContiguousFills(bars, timeframe, last, a, t.reach, lo);
  }

  // ---- both limits are reached -----------------------------------------------------------------

  /** n gap-free quarter-hour bars from the epoch on. */
  function Quarters(n: nat): (bars: seq<Candle>)
    ensures |bars| == n
  {
    seq(n, i => Candle("BTCUSDT", M15, EXCHANGE_EPOCH + i * 900_000_000, 1.0, 1.0, 1.0, 1.0, 1.0))
  }

  lemma QuartersTimes(n: nat)
    ensures forall k :: 0 <= k < n ==>
              Quarters(n)[k].time == EXCHANGE_EPOCH + k * 900_000_000
              && CloseTime(Quarters(n)[k]) == EXCHANGE_EPOCH + (k + 1) * 900_000_000
    ensures forall k :: 0 <= k < n ==> Quarters(n)[k].timeframe == M15
  {
  }

  lemma QuartersArePrinted(n: nat)
    ensures Printed(Quarters(n), M15) && OpensAfterEpoch(Quarters(n))
    ensures forall k :: 0 <= k < n ==>
              Quarters(n)[k].time == EXCHANGE_EPOCH + k * 900_000_000
              && CloseTime(Quarters(n)[k]) == EXCHANGE_EPOCH + (k + 1) * 900_000_000
    ensures ClosedBy(Quarters(n), EXCHANGE_EPOCH + n * 900_000_000) == n
  {
    hide ClosedBy, Quarters, CloseTime, Gap;
    QuartersTimes(n);
    var bars, now := Quarters(n), EXCHANGE_EPOCH + n * 900_000_000;
    forall k | 0 <= k < n
      ensures bars[k].time % 1000 == 0
    {
      WholeQuarter(k);
    }
    forall j, k | 0 <= j < k < n
      ensures bars[j].time + Gap(M15) <= bars[k].time
    {
      assert Gap(M15) == 900_000_000 && bars[j].time == EXCHANGE_EPOCH + j * 900_000_000;
    }
    AllClosed(bars, now);
  }

  lemma AllClosed(bars: seq<Candle>, now: Time)
    requires bars != [] ==> CloseTime(bars[|bars| - 1]) <= now
    ensures ClosedBy(bars, now) == |bars|
  {
  }

  lemma WholeQuarter(k: nat)
    ensures (EXCHANGE_EPOCH + k * 900_000_000) % 1000 == 0
  {
    assert EXCHANGE_EPOCH + k * 900_000_000 == (1_483_228_800_000 + k * 900_000) * 1000;
  }

  /** A store that holds only a late bar, and a target more than 600 pages before it. */
  lemma TornReached() returns (bars: seq<Candle>, t: Turn, lo: nat, now: Time)
    ensures Printed(bars, M15) && OpensAfterEpoch(bars) && Chain(bars, [t])
    ensures Sound(bars, t.before, now) && SliceAt(bars, t.before, lo) && t.before != []
    ensures t.closedThen == ClosedBy(bars, now) && t.status == Backfilled(true)
    ensures OpenedBefore(bars, QueryTime(t.start)) + 599_401 < lo
    ensures !Contiguous(bars, t.after)
  {
    hide QueryTime, OpenedBefore, ClosedBy, Length, Gap, PutAll, Printed, Contiguous, Quarters;
    var n, reach := 599_403, 599_401;
    bars, lo, now := Quarters(n), n - 1, EXCHANGE_EPOCH + n * 900_000_000;
    QuartersArePrinted(n);
    WholeMillisecond(EXCHANGE_EPOCH);
    OpenedBeforeIs(bars, M15, EXCHANGE_EPOCH, 0);
    var before := [bars[lo]];
    assert bars[lo..lo + 1] == before;
    HeadOfUnion(bars, M15, before, EXCHANGE_EPOCH, reach);
    var after := PutAll(before, bars[0..reach]);
    t := Turn(before, after, None, None, EXCHANGE_EPOCH, Backfilled(true), 0, reach, n, n);
    assert TurnIs(bars, t);
    assert bars[0].time >= 0;
    TornForGood(bars, M15, [t], lo, now);
  }

  /** The cached value answers for every target, although a backfill proved it only for its own:
      after the lookback is lengthened a settled store stays settled, is never deepened, and is
      incomplete exactly when the exchange has an older bar within the new lookback. */
  lemma LongerLookbackIsIgnored(
    bars: seq<Candle>, timeframe: Timeframe, stored: seq<Candle>, lo: nat, cached: Option<Time>, longer: Time,
    now: Time)
    requires Printed(bars, timeframe) && stored != [] && SliceAt(bars, stored, lo)
             && lo < ClosedBy(bars, now) <= lo + |stored|
    requires cached.Some? && stored[0].time <= cached.value
    ensures Settled(stored, cached, longer)
    ensures Complete(bars, stored, longer, now)
            <==> !exists bar <- bars :: QueryTime(longer) <= bar.time < stored[0].time
  {
    hide QueryTime, OpenedBefore, ClosedBy, Length, Complete, Printed;
    CompleteIffDeep(bars, timeframe, stored, lo, longer, now);
  }

  /** A first collection whose target lies after the exchange's first bar caches the second as the
      earliest; for a longer lookback the store then counts as settled and is incomplete. */
  lemma IgnoredReached() returns (bars: seq<Candle>, t: Turn, longer: Time, now: Time)
    ensures Printed(bars, M15) && OpensAfterEpoch(bars) && Chain(bars, [t]) && t.before == []
    ensures CacheSound(bars, t.cachedAfter, t.start) && longer < t.start
    ensures Complete(bars, t.after, t.start, now)
    ensures Settled(t.after, t.cachedAfter, longer) && !Complete(bars, t.after, longer, now)
  {
    hide QueryTime, OpenedBefore, ClosedBy, Length, Gap, PutAll, Printed, Quarters;
    bars, longer, now := Quarters(3), EXCHANGE_EPOCH, EXCHANGE_EPOCH + 3 * 900_000_000;
    var start := EXCHANGE_EPOCH + 1000;
    QuartersArePrinted(3);
    WholeMillisecond(start);
    WholeMillisecond(longer);
    OpenedBeforeIs(bars, M15, start, 1);
    OpenedBeforeIs(bars, M15, longer, 0);
    FreshBackfill(bars, M15, start, 3, 3, 3, false);
    FirstOfQuery(bars, M15, start);
    t := Turn([], PutAll([], bars[1..3]), None, Some(bars[1].time), start, Backfilled(false), 0, 3, 3, 3);
    assert t.after == bars[1..3] && t.after[0] == bars[1];
    assert TurnIs(bars, t);
    DeepCompletes(bars, M15, t.after, 1, start, now);
    LongerLookbackIsIgnored(bars, M15, t.after, 1, t.cachedAfter, longer, now);
    assert bars[0] in bars && QueryTime(longer) <= bars[0].time < t.after[0].time;
  }
}
