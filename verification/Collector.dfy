/** The history collector (src/pipeline.py, `_collect_and_store_binance` and its helpers). */
module Collector {
  import opened Domain
  import opened Exchange
  import opened CandleTable
  import opened Store

  /** 2017-01-01, before the exchange opened. */
  const EXCHANGE_EPOCH: Time := 1_483_228_800_000_000

  // ---- what a stored series knows ------------------------------------------------------------

  /** The stored bars are the exchange's bars lo, lo+1, ... */
  predicate SliceAt(bars: seq<Candle>, stored: seq<Candle>, lo: nat) {
    lo + |stored| <= |bars| && stored == bars[lo..lo + |stored|]
  }

  ghost predicate Contiguous(bars: seq<Candle>, stored: seq<Candle>) {
    exists lo: nat :: SliceAt(bars, stored, lo)
  }

  /** The stored bars are printed, closed and in order; there may be holes between them. */
  ghost predicate Sound(bars: seq<Candle>, stored: seq<Candle>, now: Time) {
    && ByTime(stored) && From(stored, bars)
    && forall c <- stored :: CloseTime(c) <= now
  }

  /** No exchange bar lies between the query for `start` and the cached earliest bar. */
  ghost predicate CacheSound(bars: seq<Candle>, cached: Option<Time>, start: Time) {
    cached.Some? ==> forall bar <- bars :: QueryTime(start) <= bar.time ==> cached.value <= bar.time
  }

  /** The head needs no more history: it reaches the target, or the exchange has nothing older. */
  predicate Settled(stored: seq<Candle>, cached: Option<Time>, start: Time) {
    stored != [] && (stored[0].time <= start || (cached.Some? && stored[0].time <= cached.value))
  }

  /** Every bar of the query that had closed at `now` is stored. */
  ghost predicate Complete(bars: seq<Candle>, stored: seq<Candle>, start: Time, now: Time) {
    forall k :: OpenedBefore(bars, QueryTime(start)) <= k < ClosedBy(bars, now) ==> bars[k] in stored
  }

  /** The cache is unchanged, or a probe filled it with the exchange's first bar. */
  ghost predicate Probed(bars: seq<Candle>, s: Series, before: map<Series, Time>, after: map<Series, Time>) {
    after == before || (s in after && after == before[s := after[s]]
                        && CacheSound(bars, Some(after[s]), EXCHANGE_EPOCH))
  }

  // ---- the decisions -------------------------------------------------------------------------

  /** `_is_exchange_earliest`: the cache answers; otherwise one probe fills it. */
  method IsExchangeEarliest(store: DataStore, client: BinanceClient, s: Series, firstTime: Time) returns (r: bool)
    requires client.Valid()
    modifies store`earliest, client
    ensures old(client.now) <= client.now
    ensures r ==> store.Earliest(s).Some? && firstTime <= store.Earliest(s).value
    ensures old(store.Earliest(s)).Some? ==>
              store.earliest == old(store.earliest) && client.requests == old(client.requests)
              && r == (firstTime <= store.Earliest(s).value)
    ensures Probed(client.Bars(s), s, old(store.earliest), store.earliest)
  {
    var cached := store.Earliest(s);
    if cached.Some? {
      return cached.value >= firstTime;
    }
    var page := client.GetKlines(s, EXCHANGE_EPOCH, 1);
    if page.None? || page.value == [] {
      return false;
    }
    client.BarsArePrinted(s);
    FirstOfPage(client.Bars(s), s.timeframe, EXCHANGE_EPOCH, client.now);
    store.SetExchangeEarliest(s, page.value[0].time);
    r := page.value[0].time >= firstTime;
  }

  /** The first bar of a response is the first of its query. */
  lemma FirstOfPage(bars: seq<Candle>, timeframe: Timeframe, start: Time, now: Time)
    requires Printed(bars, timeframe)
    ensures var page := Page(bars, start, 1, now);
            page != [] ==> CacheSound(bars, Some(page[0].time), start)
  {
    PageIs(bars, timeframe, start, 1, now);
    var a := OpenedBefore(bars, QueryTime(start));
    if a < |bars| {
      FirstOfQuery(bars, timeframe, start);
    }
  }

  lemma FirstOfQuery(bars: seq<Candle>, timeframe: Timeframe, start: Time)
    requires Printed(bars, timeframe) && OpenedBefore(bars, QueryTime(start)) < |bars|
    ensures CacheSound(bars, Some(bars[OpenedBefore(bars, QueryTime(start))].time), start)
  {
    hide QueryTime, OpenedBefore, Printed, Length;
    var a := OpenedBefore(bars, QueryTime(start));
    OpenedBeforeSplits(bars, QueryTime(start));
    forall bar <- bars | QueryTime(start) <= bar.time
      ensures bars[a].time <= bar.time
    {
      var k :| 0 <= k < |bars| && bars[k] == bar;
      if a > 0 {
        IndexOrder(bars, timeframe, a - 1, k);
      }
      IndexOrder(bars, timeframe, a, k);
    }
  }

  /** `_needs_backfill`. */
  method NeedsBackfill(store: DataStore, client: BinanceClient, s: Series, start: Time) returns (r: bool)
    requires client.Valid()
    modifies store`earliest, client
    ensures old(client.now) <= client.now
    ensures !r ==> Settled(store.Stored(s), store.Earliest(s), start)
    ensures old(Settled(store.Stored(s), store.Earliest(s), start)) ==>
              !r && store.earliest == old(store.earliest) && client.requests == old(client.requests)
    ensures r && store.Stored(s) != [] ==> start < store.Stored(s)[0].time
    ensures Probed(client.Bars(s), s, old(store.earliest), store.earliest)
  {
    var first := store.FirstTime(s);
    if first.None? {
      return true;
    }
    if first.value <= start {
      return false;
    }
    var atEarliest := IsExchangeEarliest(store, client, s, first.value);
    r := !atEarliest;
  }

  /** `_is_up_to_date`: the bar after the last stored one cannot have closed yet. */
  method IsUpToDate(store: DataStore, client: BinanceClient, s: Series) returns (r: bool)
    modifies client`now
    ensures old(client.now) <= client.now
    ensures r <==> store.Stored(s) != [] && client.now < store.LastTime(s).value + 2 * Length(s.timeframe)
  {
    var last := store.LastTime(s);
    if last.None? {
      return false;
    }
    var now := client.Clock();
    r := now < last.value + Length(s.timeframe) * 2;
  }

  /** The bars of a fetch that are later than the last stored one. */
  function LaterThan(candles: seq<Candle>, time: Time): seq<Candle> {
    if candles == [] then []
    else if candles[0].time > time then [candles[0]] + LaterThan(candles[1..], time)
    else LaterThan(candles[1..], time)
  }

  // ---- storing a fetch -----------------------------------------------------------------------

  lemma {:induction false} LaterThanAll(candles: seq<Candle>, time: Time)
    requires forall k :: 0 <= k < |candles| ==> candles[k].time > time
    ensures LaterThan(candles, time) == candles
  {
    if candles != [] {
      LaterThanAll(candles[1..], time);
    }
  }

  lemma LaterThanFirst(bars: seq<Candle>, timeframe: Timeframe, k: nat, b: nat)
    requires Printed(bars, timeframe) && k < b <= |bars|
    ensures LaterThan(bars[k..b], bars[k].time) == bars[k + 1..b]
  {
    hide Length;
    assert bars[k..b][0] == bars[k] && bars[k..b][1..] == bars[k + 1..b];
    LaterThanAll(bars[k + 1..b], bars[k].time);
  }

  lemma {:induction false} PutLast(rows: seq<Candle>, candle: Candle)
    requires forall c <- rows :: c.time < candle.time
    ensures Put(rows, candle) == rows + [candle]
  {
    if rows != [] {
      PutLast(rows[1..], candle);
      assert rows == [rows[0]] + rows[1..];
    }
  }

  /** Storing only later bars appends them. */
  lemma {:induction false} PutAllAppends(rows: seq<Candle>, candles: seq<Candle>)
    requires ByTime(rows + candles)
    ensures PutAll(rows, candles) == rows + candles
  {
    if candles == [] {
      assert rows + candles == rows;
    } else {
      var front, last := candles[..|candles| - 1], candles[|candles| - 1];
      assert rows + candles == rows + front + [last];
      ByTimeFront(rows + front, last);
      PutAllAppends(rows, front);
      PutLast(rows + front, last);
    }
  }

  lemma ByTimeFront(front: seq<Candle>, last: Candle)
    requires ByTime(front + [last])
    ensures ByTime(front) && forall c <- front :: c.time < last.time
  {
    var all := front + [last];
    assert forall k :: 0 <= k < |front| ==> all[k] == front[k];
    assert all[|front|] == last;
  }

  /** An incremental fetch continues the stored series from its last bar. */
  lemma IncrementExtends(bars: seq<Candle>, timeframe: Timeframe, stored: seq<Candle>, now: Time, fetch: seq<Candle>)
      returns (k: nat)
    requires Printed(bars, timeframe) && (bars != [] ==> bars[0].time >= 0)
    requires stored != [] && Sound(bars, stored, now)
    requires SliceFrom(bars, stored[|stored| - 1].time, fetch)
    ensures k < |bars| && bars[k] == stored[|stored| - 1]
    ensures OpenedBefore(bars, QueryTime(stored[|stored| - 1].time)) == k
    ensures fetch != [] ==>
              && k + |fetch| <= |bars|
              && LaterThan(fetch, stored[|stored| - 1].time) == bars[k + 1..k + |fetch|]
              && PutAll(stored, bars[k + 1..k + |fetch|]) == stored + bars[k + 1..k + |fetch|]
  {
    hide Length, QueryTime, OpenedBefore, PutAll, LaterThan;
    var last := stored[|stored| - 1];
    assert last in stored;
    k :| 0 <= k < |bars| && bars[k] == last;
    assert k > 0 ==> bars[0].time < bars[k].time;
    CursorFinds(bars, timeframe, k);
    if fetch != [] {
      LaterThanFirst(bars, timeframe, k, k + |fetch|);
      var more := bars[k + 1..k + |fetch|];
      assert forall i :: 0 <= i < |more| ==> more[i] == bars[k + 1 + i];
      PutAllAppends(stored, more);
    }
  }

  /** The index of a printed bar is unique. */
  lemma SameIndex(bars: seq<Candle>, timeframe: Timeframe, j: nat, k: nat)
    requires Printed(bars, timeframe) && j < |bars| && k < |bars| && bars[j] == bars[k]
    ensures j == k
  {
    hide Length;
    assert bars[j].time == bars[k].time;
  }

  /** Later bars queried at or after the target, earlier ones not. */
  lemma QueryTimeBounds(start: Time, time: Time)
    requires time >= 0 && time % 1000 == 0
    ensures time > start ==> time >= QueryTime(start)
    ensures time <= start ==> time <= QueryTime(start)
  {
  }

  // ---- backfill ------------------------------------------------------------------------------

  /** bars[a..reach] were fetched from the query for `start`. */
  ghost predicate Fetched(
    bars: seq<Candle>, start: Time, reach: nat, closedThen: nat, closedNow: nat, truncated: bool)
  {
    var a := OpenedBefore(bars, QueryTime(start));
    && a <= reach <= |bars|
    && reach <= Greater(a, closedNow)
    && (if truncated then reach == a + 599_401 else closedThen <= reach)
  }

  lemma FetchedOf(bars: seq<Candle>, start: Time, candles: seq<Candle>, closedThen: nat, closedNow: nat, pages: nat,
                  truncated: bool)
    requires SliceFrom(bars, start, candles) && (truncated ==> pages == MAX_PAGES)
    requires FetchEnds(OpenedBefore(bars, QueryTime(start)), |candles|, closedThen, closedNow, pages, truncated)
    ensures Fetched(bars, start, OpenedBefore(bars, QueryTime(start)) + |candles|, closedThen, closedNow, truncated)
  {
    hide QueryTime, OpenedBefore, PagesFor;
  }

  /** A store whose first bar opens after the target lies beyond the start of the query, and
      its closed bars are within reach of an uncut fetch. */
  lemma StoredBeyondQuery(bars: seq<Candle>, timeframe: Timeframe, stored: seq<Candle>, start: Time, now: Time)
    requires Printed(bars, timeframe) && (bars != [] ==> bars[0].time >= 0)
    requires Sound(bars, stored, now) && stored != [] && start < stored[0].time
    ensures forall c <- stored :: QueryTime(start) <= c.time
    ensures OpenedBefore(bars, QueryTime(start)) < ClosedBy(bars, now)
  {
    hide QueryTime, OpenedBefore, ClosedBy, Length;
    assert stored[0] in stored;
    var j :| 0 <= j < |bars| && bars[j] == stored[0];
    assert j > 0 ==> bars[0].time < bars[j].time;
    QueryTimeBounds(start, stored[0].time);
    OpenedBeforeSplits(bars, QueryTime(start));
    ClosedBySplits(bars, now);
    var a := OpenedBefore(bars, QueryTime(start));
    if a > 0 {
      IndexOrder(bars, timeframe, a - 1, j);
    }
    forall c <- stored
      ensures QueryTime(start) <= c.time
    {
      var k :| 0 <= k < |stored| && stored[k] == c;
      assert k > 0 ==> stored[0].time < stored[k].time;
    }
  }

  /** After a backfill that found bars the first of them heads the store, so the head is settled;
      a backfill of a store with bars always finds some. */
  lemma BackfillSettles(
    bars: seq<Candle>, timeframe: Timeframe, stored: seq<Candle>, start: Time, reach: nat,
    closedThen: nat, closedNow: nat, truncated: bool, now: Time, cached: Option<Time>)
    requires Printed(bars, timeframe) && (bars != [] ==> bars[0].time >= 0)
    requires Sound(bars, stored, now) && (stored != [] ==> start < stored[0].time)
    requires Fetched(bars, start, reach, closedThen, closedNow, truncated) && ClosedBy(bars, now) <= closedThen
    requires var a := OpenedBefore(bars, QueryTime(start));
             a < reach && start < bars[a].time ==> cached == Some(bars[a].time)
    ensures var after := PutAll(stored, bars[OpenedBefore(bars, QueryTime(start))..reach]);
            after != [] ==> Settled(after, cached, start)
  {
    hide QueryTime, OpenedBefore, ClosedBy, Length, PutAll;
    var a := OpenedBefore(bars, QueryTime(start));
    if stored != [] {
      StoredBeyondQuery(bars, timeframe, stored, start, now);
    }
    if a == reach {
      assert bars[a..reach] == [];
      PutNone(stored);
    } else {
      HeadOfUnion(bars, timeframe, stored, start, reach);
    }
  }

  lemma PutNone(stored: seq<Candle>)
    ensures PutAll(stored, []) == stored
  {
  }

  lemma HeadOfUnion(bars: seq<Candle>, timeframe: Timeframe, stored: seq<Candle>, start: Time, reach: nat)
    requires Printed(bars, timeframe) && ByTime(stored) && From(stored, bars)
    requires OpenedBefore(bars, QueryTime(start)) < reach <= |bars|
    requires forall c <- stored :: QueryTime(start) <= c.time
    ensures var a := OpenedBefore(bars, QueryTime(start));
            var after := PutAll(stored, bars[a..reach]);
            ByTime(after) && From(after, bars) && after != [] && after[0] == bars[a]
  {
    hide QueryTime, OpenedBefore, Length, PutAll;
    var a := OpenedBefore(bars, QueryTime(start));
    var fetch := bars[a..reach];
    SliceOrdered(bars, timeframe, a, reach);
    PutAllUnion(bars, timeframe, stored, fetch);
    FirstOfQuery(bars, timeframe, start);
    var after := PutAll(stored, fetch);
    assert fetch[0] == bars[a] && fetch[0] in fetch && bars[a] in after;
    assert after[0] in after;
    assert forall k :: 0 <= k < |fetch| ==> fetch[0].time <= fetch[k].time;
    var k :| 0 <= k < |after| && after[k] == bars[a];
    RowOrder(after, k, 0);
  }

  /** A backfill leaves the history contiguous exactly when it reaches the stored bars; an uncut
      one always does, so only the page guard over a store with bars can tear it. */
  lemma BackfillTearsIff(
    bars: seq<Candle>, timeframe: Timeframe, stored: seq<Candle>, lo: nat, start: Time, reach: nat,
    closedThen: nat, closedNow: nat, truncated: bool, now: Time)
    requires Printed(bars, timeframe) && (bars != [] ==> bars[0].time >= 0)
    requires Sound(bars, stored, now) && SliceAt(bars, stored, lo) && stored != [] && start < stored[0].time
    requires Fetched(bars, start, reach, closedThen, closedNow, truncated) && ClosedBy(bars, now) <= closedThen
    ensures var a := OpenedBefore(bars, QueryTime(start));
            var after := PutAll(stored, bars[a..reach]);
            && a <= lo
            && (Contiguous(bars, after) <==> lo <= reach)
            && (lo <= reach <==> !(truncated && a + 599_401 < lo))
            && (lo <= reach ==> SliceAt(bars, after, a) && |after| == Greater(lo + |stored|, reach) - a)
  {
    hide QueryTime, OpenedBefore, ClosedBy, Length, PutAll, Contiguous, Printed, Sound, Fetched;
    var a, hi := OpenedBefore(bars, QueryTime(start)), lo + |stored|;
    BackfillReaches(bars, timeframe, stored, lo, start, reach, closedThen, closedNow, truncated, now);
    if lo <= reach {
      SlicesMerge(bars, timeframe, lo, hi, a, reach);
      var whole := bars[a..Greater(hi, reach)];
      assert |whole| == Greater(hi, reach) - a && SliceAt(bars, whole, a);
      SliceIsContiguous(bars, whole, a);
    } else {
      SlicesApart(bars, timeframe, lo, hi, a, reach);
      Torn(bars, timeframe, lo, hi, a, reach);
    }
  }

  lemma SliceIsContiguous(bars: seq<Candle>, stored: seq<Candle>, lo: nat)
    requires SliceAt(bars, stored, lo)
    ensures Contiguous(bars, stored)
  {
  }

  /** The start of the query, the head of the store and the end of the fetch in order. */
  lemma BackfillReaches(
    bars: seq<Candle>, timeframe: Timeframe, stored: seq<Candle>, lo: nat, start: Time, reach: nat,
    closedThen: nat, closedNow: nat, truncated: bool, now: Time)
    requires Printed(bars, timeframe) && (bars != [] ==> bars[0].time >= 0)
    requires Sound(bars, stored, now) && SliceAt(bars, stored, lo) && stored != [] && start < stored[0].time
    requires Fetched(bars, start, reach, closedThen, closedNow, truncated) && ClosedBy(bars, now) <= closedThen
    ensures var a := OpenedBefore(bars, QueryTime(start));
            && a <= lo && a < reach <= |bars|
            && (lo <= reach <==> !(truncated && a + 599_401 < lo))
  {
    hide QueryTime, OpenedBefore, ClosedBy, Length, Printed;
    var a := OpenedBefore(bars, QueryTime(start));
    StoredBeyondQuery(bars, timeframe, stored, start, now);
    OpenedBeforeSplits(bars, QueryTime(start));
    ClosedBySplits(bars, now);
    assert stored[0] == bars[lo] && stored[0] in stored;
    if a > 0 {
      IndexOrder(bars, timeframe, a - 1, lo);
    }
  }

  lemma RowOrder(rows: seq<Candle>, j: nat, k: nat)
    requires ByTime(rows) && j < |rows| && k < |rows|
    ensures j <= k <==> rows[j].time <= rows[k].time
  {
  }

  /** A contiguous store has no hole between two of its bars. */
  lemma ContiguousFills(bars: seq<Candle>, timeframe: Timeframe, stored: seq<Candle>, i: nat, j: nat, k: nat)
    requires Printed(bars, timeframe) && i <= j <= k < |bars| && bars[i] in stored && bars[k] in stored
    ensures Contiguous(bars, stored) ==> bars[j] in stored
  {
    hide Length;
    if lo: nat :| SliceAt(bars, stored, lo) {
      var x :| 0 <= x < |stored| && stored[x] == bars[i];
      var z :| 0 <= z < |stored| && stored[z] == bars[k];
      SameIndex(bars, timeframe, lo + x, i);
      SameIndex(bars, timeframe, lo + z, k);
      assert stored[j - lo] == bars[j];
    }
  }

  lemma TornMisses(bars: seq<Candle>, timeframe: Timeframe, lo: nat, hi: nat, a: nat, b: nat)
    requires Printed(bars, timeframe) && a < b < lo < hi <= |bars|
    ensures bars[b] !in bars[a..b] + bars[lo..hi]
  {
    hide Length, Printed;
    var torn := bars[a..b] + bars[lo..hi];
    forall i | 0 <= i < |torn|
      ensures torn[i] != bars[b]
    {
      var j := if i < b - a then a + i else lo + i - (b - a);
      assert torn[i] == bars[j];
      IndexOrder(bars, timeframe, j, b);
      IndexOrder(bars, timeframe, b, j);
    }
  }

  lemma Torn(bars: seq<Candle>, timeframe: Timeframe, lo: nat, hi: nat, a: nat, b: nat)
    requires Printed(bars, timeframe) && a < b < lo < hi <= |bars|
    ensures !Contiguous(bars, bars[a..b] + bars[lo..hi])
  {
    hide Length, Contiguous, Printed;
    var torn := bars[a..b] + bars[lo..hi];
    assert torn[0] == bars[a] && torn[b - a] == bars[lo];
    ContiguousFills(bars, timeframe, torn, a, b, lo);
    TornMisses(bars, timeframe, lo, hi, a, b);
  }

  // ---- completeness --------------------------------------------------------------------------

  /** The stored bars begin no later than the query does. */
  ghost predicate DeepEnough(bars: seq<Candle>, stored: seq<Candle>, start: Time)
    requires stored != []
  {
    forall bar <- bars :: QueryTime(start) <= bar.time ==> stored[0].time <= bar.time
  }

  /** A settled head with a sound cache is deep enough for its target. */
  lemma SettledIsDeep(bars: seq<Candle>, timeframe: Timeframe, stored: seq<Candle>, cached: Option<Time>, start: Time)
    requires Printed(bars, timeframe) && (bars != [] ==> bars[0].time >= 0)
    requires Settled(stored, cached, start) && From(stored, bars) && CacheSound(bars, cached, start)
    ensures DeepEnough(bars, stored, start)
  {
    hide QueryTime, Length;
    assert stored[0] in stored;
    var j :| 0 <= j < |bars| && bars[j] == stored[0];
    IndexOrder(bars, timeframe, 0, j);
    QueryTimeBounds(start, stored[0].time);
  }

  /** A deep store that holds the newest bar closed at `now` has every bar of the query. */
  lemma DeepCompletes(bars: seq<Candle>, timeframe: Timeframe, stored: seq<Candle>, lo: nat, start: Time, now: Time)
    requires Printed(bars, timeframe) && stored != [] && SliceAt(bars, stored, lo) && DeepEnough(bars, stored, start)
    requires ClosedBy(bars, now) <= lo + |stored|
    ensures Complete(bars, stored, start, now)
  {
    hide QueryTime, OpenedBefore, ClosedBy, Length, Printed;
    OpenedBeforeSplits(bars, QueryTime(start));
    assert stored[0] == bars[lo];
    forall k | OpenedBefore(bars, QueryTime(start)) <= k < ClosedBy(bars, now)
      ensures bars[k] in stored
    {
      IndexOrder(bars, timeframe, lo, k);
      assert stored[k - lo] == bars[k];
    }
  }

  /** A contiguous store that holds the newest closed bar is complete for a target exactly when it
      is deep enough for it. */
  lemma CompleteIffDeep(bars: seq<Candle>, timeframe: Timeframe, stored: seq<Candle>, lo: nat, start: Time, now: Time)
    requires Printed(bars, timeframe) && stored != [] && SliceAt(bars, stored, lo)
    requires lo < ClosedBy(bars, now) <= lo + |stored|
    ensures Complete(bars, stored, start, now) <==> DeepEnough(bars, stored, start)
  {
    hide QueryTime, OpenedBefore, ClosedBy, Length, Printed;
    var a := OpenedBefore(bars, QueryTime(start));
    OpenedBeforeSplits(bars, QueryTime(start));
    assert stored[0] == bars[lo];
    if DeepEnough(bars, stored, start) {
      DeepCompletes(bars, timeframe, stored, lo, start, now);
    }
    if Complete(bars, stored, start, now) {
      if a < lo {
        FirstStored(bars, timeframe, stored, lo, a);
      }
      forall bar <- bars | QueryTime(start) <= bar.time
        ensures stored[0].time <= bar.time
      {
        var k :| 0 <= k < |bars| && bars[k] == bar;
        if a > 0 {
          IndexOrder(bars, timeframe, k, a - 1);
        }
        IndexOrder(bars, timeframe, lo, k);
      }
    }
  }

  /** No bar before the head is stored. */
  lemma FirstStored(bars: seq<Candle>, timeframe: Timeframe, stored: seq<Candle>, lo: nat, k: nat)
    requires Printed(bars, timeframe) && SliceAt(bars, stored, lo) && k < lo < |bars|
    ensures bars[k] !in stored
  {
    hide Length, Printed;
    forall i | 0 <= i < |stored|
      ensures stored[i] != bars[k]
    {
      assert stored[i] == bars[lo + i];
      IndexOrder(bars, timeframe, lo + i, k);
    }
  }

  /** An uncut backfill stores every bar of its query. */
  lemma BackfillCompletes(
    bars: seq<Candle>, timeframe: Timeframe, stored: seq<Candle>, start: Time, reach: nat, closedThen: nat,
    closedNow: nat, now: Time)
    requires Printed(bars, timeframe) && ByTime(stored) && From(stored, bars)
    requires Fetched(bars, start, reach, closedThen, closedNow, false) && ClosedBy(bars, now) <= closedThen
    ensures Complete(bars, PutAll(stored, bars[OpenedBefore(bars, QueryTime(start))..reach]), start, now)
  {
    hide QueryTime, OpenedBefore, ClosedBy, Length, PutAll;
    var a := OpenedBefore(bars, QueryTime(start));
    SliceOrdered(bars, timeframe, a, reach);
    PutAllUnion(bars, timeframe, stored, bars[a..reach]);
    forall k | a <= k < ClosedBy(bars, now)
      ensures bars[k] in PutAll(stored, bars[a..reach])
    {
      assert bars[a..reach][k - a] == bars[k];
    }
  }

  /** How far a month may be shorter than the length its bars are given. */
  function Slack(timeframe: Timeframe): (slack: Time)
    ensures timeframe != MO1 ==> slack == 0
    ensures timeframe == MO1 ==> slack == 2 * DAY
  {
    Length(timeframe) - Gap(timeframe)
  }

  /** When the next bar cannot have closed yet, nothing newer than the last stored bar has. */
  lemma UpToDateHoldsNewest(bars: seq<Candle>, timeframe: Timeframe, k: nat, now: Time, later: Time)
    requires Printed(bars, timeframe) && k < |bars|
    requires now <= later < bars[k].time + 2 * Length(timeframe)
    ensures ClosedBy(bars, now - Slack(timeframe)) <= k + 1
  {
    hide ClosedBy;
    ClosedBySplits(bars, now - Slack(timeframe));
    var closed := ClosedBy(bars, now - Slack(timeframe));
    if closed > 0 && k + 1 < |bars| {
      IndexOrder(bars, timeframe, k + 1, closed - 1);
    }
  }

  // ---- one series ----------------------------------------------------------------------------

  datatype Status = Failed | UpToDate | Backfilled(truncated: bool) | Extended(truncated: bool)
  {
    /** The page guard ended the fetch. */
    predicate Cut() { (Backfilled? || Extended?) && truncated }

    /** The instant whose closed bars a turn at `now` answers for. */
    function Until(timeframe: Timeframe, now: Time): Time {
      if UpToDate? then now - Slack(timeframe) else now
    }
  }

  /** No bar of the exchange opens before its epoch. */
  ghost predicate OpensAfterEpoch(bars: seq<Candle>) {
    forall bar <- bars :: EXCHANGE_EPOCH <= bar.time
  }

  lemma ProbeIsSound(bars: seq<Candle>, s: Series, before: map<Series, Time>, after: map<Series, Time>, start: Time)
    requires Probed(bars, s, before, after) && OpensAfterEpoch(bars)
    requires CacheSound(bars, EarliestIn(before, s), start)
    ensures CacheSound(bars, EarliestIn(after, s), start)
  {
  }

  /** What an incremental fetch adds: bars[k+1..reach], where k is the last stored bar. */
  ghost predicate Increment(bars: seq<Candle>, before: seq<Candle>, after: seq<Candle>, k: nat, reach: nat) {
    && before != [] && k < reach <= |bars| && bars[k] == before[|before| - 1]
    && after == before + bars[k + 1..reach]
  }

  /** The last stored bar has closed, so a fetch that starts at it returns at least that bar, and
      its later bars are appended. */
  lemma IncrementOf(
    bars: seq<Candle>, timeframe: Timeframe, stored: seq<Candle>, now: Time, fetch: seq<Candle>,
    closedThen: nat, closedNow: nat, pages: nat, truncated: bool) returns (k: nat, reach: nat)
    requires Printed(bars, timeframe) && (bars != [] ==> bars[0].time >= 0)
    requires stored != [] && Sound(bars, stored, now) && ClosedBy(bars, now) <= closedThen
    requires var start := stored[|stored| - 1].time;
             SliceFrom(bars, start, fetch) && (truncated ==> pages == MAX_PAGES)
             && FetchEnds(OpenedBefore(bars, QueryTime(start)), |fetch|, closedThen, closedNow, pages, truncated)
    ensures Increment(bars, stored, PutAll(stored, LaterThan(fetch, stored[|stored| - 1].time)), k, reach)
    ensures reach <= Greater(k + 1, closedNow)
    ensures if truncated then reach == k + 599_401 else closedThen <= reach
    ensures LaterThan(fetch, stored[|stored| - 1].time) == [] ==>
            PutAll(stored, LaterThan(fetch, stored[|stored| - 1].time)) == stored
  {
    hide QueryTime, OpenedBefore, ClosedBy, Length, PutAll, Printed, LaterThan, PagesFor, SliceFrom;
    k := IncrementExtends(bars, timeframe, stored, now, fetch);
    reach := k + |fetch|;
    assert stored[|stored| - 1] in stored;
    ClosedBySplits(bars, now);
    PutNone(stored);
  }

  /** Only the given series may change. */
  twostate predicate OthersUnchanged(store: DataStore, s: Series)
    reads store
  {
    forall t :: t != s ==>
      && StoredIn(store.candles, t) == old(StoredIn(store.candles, t))
      && EarliestIn(store.earliest, t) == old(EarliestIn(store.earliest, t))
  }

  /** The backfill branch: fetch from the target, and when the first bar lies after the target,
      record it as the exchange's earliest. */
  method Backfill(store: DataStore, client: BinanceClient, s: Series, start: Time)
      returns (ok: bool, truncated: bool, ghost reach: nat)
    requires client.Valid()
    requires Sound(client.Bars(s), store.Stored(s), client.now) && CacheSound(client.Bars(s), store.Earliest(s), start)
    requires store.Stored(s) != [] ==> start < store.Stored(s)[0].time
    modifies store`candles, store`earliest, client
    ensures client.Valid() && old(client.now) <= client.now && OthersUnchanged(store, s)
    ensures CacheSound(client.Bars(s), store.Earliest(s), start)
    ensures !ok ==> store.candles == old(store.candles) && store.earliest == old(store.earliest)
    ensures ok && store.Stored(s) != [] ==> Settled(store.Stored(s), store.Earliest(s), start)
    ensures ok ==>
              && Fetched(client.Bars(s), start, reach, ClosedBy(client.Bars(s), old(client.now)),
                         ClosedBy(client.Bars(s), client.now),
                         truncated)
              && store.Stored(s) == PutAll(old(store.Stored(s)),
                                           client.Bars(s)[OpenedBefore(client.Bars(s), QueryTime(start))..reach])
  {
    hide QueryTime, OpenedBefore, ClosedBy, Length, PutAll, Printed, Sound, BinanceClient.Valid, CacheSound,
      FetchEnds, Fetched, Settled;
    ghost var bars, stored, began, sent := client.Bars(s), store.Stored(s), client.now, client.requests;
    client.BarsArePrinted(s);
    var candles;
    candles, truncated := client.GetKlinesSince(s, start, MAX_PAGES);
    reach := 0;
    if candles.None? {
      return false, truncated, reach;
    }
    reach := OpenedBefore(bars, QueryTime(start)) + |candles.value|;
    FetchedOf(bars, start, candles.value, ClosedBy(bars, began), ClosedBy(bars, client.now), client.requests - sent,
              truncated);
    if candles.value != [] && candles.value[0].time > start {
      FirstOfQuery(bars, s.timeframe, start);
      store.SetExchangeEarliest(s, candles.value[0].time);
    }
    BackfillSettles(bars, s.timeframe, stored, start, reach, ClosedBy(bars, began), ClosedBy(bars, client.now),
                    truncated, began,
                    store.Earliest(s));
    PutNone(stored);
    store.UpsertCandles(s, candles.value);
    ok := true;
  }

  /** The incremental branch: fetch from the last stored bar and keep what is later. */
  method Extend(store: DataStore, client: BinanceClient, s: Series)
    returns (ok: bool, truncated: bool, ghost k: nat, ghost reach: nat)
    requires client.Valid()
    requires Sound(client.Bars(s), store.Stored(s), client.now) && store.Stored(s) != []
    modifies store`candles, client
    ensures client.Valid() && old(client.now) <= client.now && OthersUnchanged(store, s)
    ensures !ok ==> store.candles == old(store.candles)
    ensures ok ==>
              && Increment(client.Bars(s), old(store.Stored(s)), store.Stored(s), k, reach)
              && reach <= Greater(k + 1, ClosedBy(client.Bars(s), client.now))
              && (if truncated then reach == k + 599_401
                  else ClosedBy(client.Bars(s), old(client.now)) <= reach)
  {
    hide QueryTime, OpenedBefore, ClosedBy, Length, PutAll, Printed, Sound, BinanceClient.Valid, FetchEnds, Increment,
      LaterThan;
    ghost var bars, stored, began, sent := client.Bars(s), store.Stored(s), client.now, client.requests;
    client.BarsArePrinted(s);
    k, reach := 0, 0;
    var last := store.LastTime(s).value;
    var candles;
    candles, truncated := client.GetKlinesSince(s, last, MAX_PAGES);
    if candles.None? {
      return false, truncated, k, reach;
    }
    k, reach := IncrementOf(bars, s.timeframe, stored, began, candles.value, ClosedBy(bars, began),
                            ClosedBy(bars, client.now),
                            client.requests - sent, truncated);
    store.UpsertCandles(s, LaterThan(candles.value, last));
    ok := true;
  }

  lemma FetchedWeaker(bars: seq<Candle>, start: Time, reach: nat, before: nat, closedThen: nat, closedNow: nat,
                      truncated: bool)
    requires before <= closedThen
    ensures Fetched(bars, start, reach, closedThen, closedNow, truncated) ==>
            Fetched(bars, start, reach, before, closedNow, truncated)
  {
    hide QueryTime, OpenedBefore;
  }

  lemma SoundLater(bars: seq<Candle>, stored: seq<Candle>, now: Time, later: Time)
    requires Sound(bars, stored, now) && now <= later
    ensures Sound(bars, stored, later)
  {
  }

  lemma IncrementHead(bars: seq<Candle>, before: seq<Candle>, after: seq<Candle>, k: nat, reach: nat)
    ensures Increment(bars, before, after, k, reach) ==> after != [] && after[0] == before[0]
  {
  }

  /** The try block of `_collect_and_store_binance` for one timeframe. `reach` is the index up to
      which bars were fetched and `k` that of the last bar stored before. */
  method CollectOne(store: DataStore, client: BinanceClient, s: Series, start: Time)
    returns (status: Status, ghost k: nat, ghost reach: nat)
    requires client.Valid() && OpensAfterEpoch(client.Bars(s))
    requires Sound(client.Bars(s), store.Stored(s), client.now)
    requires CacheSound(client.Bars(s), store.Earliest(s), start)
    modifies store`candles, store`earliest, client
    ensures client.Valid() && old(client.now) <= client.now && OthersUnchanged(store, s)
    ensures CacheSound(client.Bars(s), store.Earliest(s), start)
    ensures TurnIs(client.Bars(s), Turn(old(store.Stored(s)), store.Stored(s), old(store.Earliest(s)),
                                        store.Earliest(s), start,
                                        status, k, reach, ClosedBy(client.Bars(s), old(client.now)),
                                        ClosedBy(client.Bars(s), client.now)))
    ensures status.UpToDate? ==> store.Stored(s) != [] && client.now < store.LastTime(s).value + 2 * Length(s.timeframe)
    ensures old(Settled(store.Stored(s), store.Earliest(s), start))
            && client.now < old(store.LastTime(s)).value + 2 * Length(s.timeframe) ==>
              status.UpToDate? && client.requests == old(client.requests)
  {
    hide QueryTime, OpenedBefore, ClosedBy, Length, PutAll, Printed, BinanceClient.Valid, CacheSound, Increment,
      Fetched, Sound,
         OpensAfterEpoch, Probed;
    k, reach := 0, 0;
    ghost var bars, stored, cache, began := client.Bars(s), store.Stored(s), store.earliest, client.now;
    client.BarsArePrinted(s);
    var backfill := NeedsBackfill(store, client, s, start);
    ProbeIsSound(bars, s, cache, store.earliest, start);
    ghost var asked := client.now;
    ClosedByGrows(bars, s.timeframe, began, asked);
    SoundLater(bars, stored, began, asked);
    if backfill {
      var ok, truncated;
      ok, truncated, reach := Backfill(store, client, s, start);
      status := if ok then Backfilled(truncated) else Failed;
      FetchedWeaker(bars, start, reach, ClosedBy(bars, began), ClosedBy(bars, asked), ClosedBy(bars, client.now),
                    truncated);
    } else {
      var current := IsUpToDate(store, client, s);
      if current {
        return UpToDate, k, reach;
      }
      ClosedByGrows(bars, s.timeframe, began, client.now);
      SoundLater(bars, stored, began, client.now);
      var ok, truncated;
      ok, truncated, k, reach := Extend(store, client, s);
      status := if ok then Extended(truncated) else Failed;
      IncrementHead(bars, stored, store.Stored(s), k, reach);
    }
  }

  /** What happened to the stored bars. */
  ghost predicate Collected(
    bars: seq<Candle>, before: seq<Candle>, after: seq<Candle>, start: Time, status: Status, k: nat, reach: nat,
    closedThen: nat, closedNow: nat)
  {
    match status
    case Failed => after == before
    case UpToDate => after == before
    case Backfilled(truncated) =>
      && (before != [] ==> start < before[0].time)
      && Fetched(bars, start, reach, closedThen, closedNow, truncated)
      && after == PutAll(before, bars[OpenedBefore(bars, QueryTime(start))..reach])
    case Extended(truncated) =>
      && Increment(bars, before, after, k, reach)
      && reach <= Greater(k + 1, closedNow)
      && (if truncated then reach == k + 599_401 else closedThen <= reach)
  }

  /** One turn for one series: the stored bars and the cached earliest value before and after. */
  datatype Turn = Turn(
    before: seq<Candle>,
    after: seq<Candle>,
    cachedBefore: Option<Time>,
    cachedAfter: Option<Time>,
    start: Time,
    status: Status,
    k: nat,
    reach: nat,
    closedThen: nat,
    closedNow: nat)

  /** What every turn keeps: unless it failed the head is settled after it, and over a settled
      head it is no backfill. */
  ghost predicate TurnIs(bars: seq<Candle>, t: Turn) {
    && Collected(bars, t.before, t.after, t.start, t.status, t.k, t.reach, t.closedThen, t.closedNow)
    && (!t.status.Failed? && t.after != [] ==> Settled(t.after, t.cachedAfter, t.start))
    && (Settled(t.before, t.cachedBefore, t.start) ==> !t.status.Backfilled? && t.cachedAfter == t.cachedBefore)
  }

  // ---- convergence ---------------------------------------------------------------------------

  /** Appending to a contiguous store keeps it contiguous, cut or not. */
  lemma IncrementKeepsSlice(
    bars: seq<Candle>, timeframe: Timeframe, before: seq<Candle>, after: seq<Candle>, lo: nat, k: nat, reach: nat)
    requires Printed(bars, timeframe) && SliceAt(bars, before, lo) && Increment(bars, before, after, k, reach)
    ensures SliceAt(bars, after, lo) && lo + |after| == reach
  {
    hide Printed;
    assert before[|before| - 1] == bars[lo + |before| - 1];
    SameIndex(bars, timeframe, k, lo + |before| - 1);
    assert after == bars[lo..reach];
  }

  /** Collection keeps a contiguous history contiguous with one exact exception: a backfill over
      a store with bars that the page guard cuts before it reaches the first stored bar. */
  lemma CollectionTearsIff(
    bars: seq<Candle>, timeframe: Timeframe, before: seq<Candle>, after: seq<Candle>, lo: nat, start: Time,
    status: Status,
    k: nat, reach: nat, closedNow: nat, now: Time)
    requires Printed(bars, timeframe) && (bars != [] ==> bars[0].time >= 0)
    requires Sound(bars, before, now) && SliceAt(bars, before, lo)
    requires Collected(bars, before, after, start, status, k, reach, ClosedBy(bars, now), closedNow)
    ensures Contiguous(bars, after) <==>
            !(status == Backfilled(true) && before != []
              && OpenedBefore(bars, QueryTime(start)) + 599_401 < lo)
  {
    hide QueryTime, OpenedBefore, ClosedBy, Length, PutAll, Printed, Sound, Contiguous, Fetched;
    match status {
      case Backfilled(truncated) =>
        if before != [] {
          BackfillTearsIff(bars, timeframe, before, lo, start, reach, ClosedBy(bars, now), closedNow, truncated, now);
        } else {
          FreshBackfill(bars, timeframe, start, reach, ClosedBy(bars, now), closedNow, truncated);
        }
      case Extended(_) =>
        IncrementKeepsSlice(bars, timeframe, before, after, lo, k, reach);
        SliceIsContiguous(bars, after, lo);
      case _ =>
        SliceIsContiguous(bars, after, lo);
    }
  }

  /** A backfill of an empty store stores exactly the fetched slice. */
  lemma FreshBackfill(bars: seq<Candle>, timeframe: Timeframe, start: Time, reach: nat, closedThen: nat,
                      closedNow: nat, truncated: bool)
    requires Printed(bars, timeframe) && Fetched(bars, start, reach, closedThen, closedNow, truncated)
    ensures var a := OpenedBefore(bars, QueryTime(start));
            var after := PutAll([], bars[a..reach]);
            after == bars[a..reach] && SliceAt(bars, after, a) && Contiguous(bars, after)
  {
    hide QueryTime, OpenedBefore, Length, PutAll;
    var a := OpenedBefore(bars, QueryTime(start));
    SliceOrdered(bars, timeframe, a, reach);
    assert [] + bars[a..reach] == bars[a..reach];
    PutAllAppends([], bars[a..reach]);
    assert |bars[a..reach]| == reach - a;
    SliceIsContiguous(bars, bars[a..reach], a);
  }

  /** One error-free, uncut collection of a contiguous history stores every bar of the query that
      had closed when it began. */
  lemma CollectionCompletes(
    bars: seq<Candle>, timeframe: Timeframe, before: seq<Candle>, after: seq<Candle>, lo: nat, start: Time,
    status: Status,
    k: nat, reach: nat, closedNow: nat, now: Time, later: Time, cached: Option<Time>)
    requires Printed(bars, timeframe) && (bars != [] ==> bars[0].time >= 0)
    requires Sound(bars, before, now) && SliceAt(bars, before, lo) && now <= later
    requires Collected(bars, before, after, start, status, k, reach, ClosedBy(bars, now), closedNow)
    requires !status.Failed? && !status.Cut()
    requires status.UpToDate? ==> after != [] && later < after[|after| - 1].time + 2 * Length(timeframe)
    requires CacheSound(bars, cached, start) && (after != [] ==> Settled(after, cached, start))
    ensures Complete(bars, after, start, status.Until(timeframe, now))
  {
    hide QueryTime, OpenedBefore, ClosedBy, Length, PutAll, Printed, Fetched, CacheSound, Settled, Complete, DeepEnough;
    hide Slack;
    match status {
      case Backfilled(_) =>
        BackfillCompletes(bars, timeframe, before, start, reach, ClosedBy(bars, now), closedNow, now);
      case Extended(_) =>
        IncrementKeepsSlice(bars, timeframe, before, after, lo, k, reach);
        HeadClosed(bars, timeframe, before, lo, now);
        SettledIsDeepSlice(bars, timeframe, after, lo, cached, start);
        CompleteIffDeep(bars, timeframe, after, lo, start, now);
      case UpToDate =>
        assert after[|after| - 1] == bars[lo + |after| - 1];
        UpToDateHoldsNewest(bars, timeframe, lo + |after| - 1, now, later);
        SettledIsDeepSlice(bars, timeframe, after, lo, cached, start);
        DeepCompletes(bars, timeframe, after, lo, start, status.Until(timeframe, now));
    }
  }

  lemma HeadClosed(bars: seq<Candle>, timeframe: Timeframe, stored: seq<Candle>, lo: nat, now: Time)
    requires stored != [] && Sound(bars, stored, now) && SliceAt(bars, stored, lo)
    ensures lo < ClosedBy(bars, now)
  {
    hide Length;
    ClosedBySplits(bars, now);
    assert stored[0] == bars[lo] && stored[0] in stored;
  }

  lemma SettledIsDeepSlice(bars: seq<Candle>, timeframe: Timeframe, stored: seq<Candle>, lo: nat,
                           cached: Option<Time>, start: Time)
    requires Printed(bars, timeframe) && (bars != [] ==> bars[0].time >= 0) && SliceAt(bars, stored, lo)
    requires Settled(stored, cached, start) && CacheSound(bars, cached, start)
    ensures DeepEnough(bars, stored, start)
  {
    hide Printed, CacheSound, Settled, DeepEnough;
    assert From(stored, bars);
    SettledIsDeep(bars, timeframe, stored, cached, start);
  }

  /** Everything stored by a collection is printed, closed and in order. */
  lemma CollectionIsSound(
    bars: seq<Candle>, timeframe: Timeframe, before: seq<Candle>, after: seq<Candle>, start: Time, status: Status,
    k: nat, reach: nat, closedThen: nat, now: Time, later: Time)
    requires Printed(bars, timeframe) && Sound(bars, before, now) && now <= later
    requires Collected(bars, before, after, start, status, k, reach, closedThen, ClosedBy(bars, later))
    ensures Sound(bars, after, later)
  {
    hide QueryTime, OpenedBefore, ClosedBy, Length, PutAll, Printed;
    ClosedOnesFirst(bars, timeframe, later);
    var a := OpenedBefore(bars, QueryTime(start));
    match status {
      case Backfilled(_) =>
        SliceOrdered(bars, timeframe, a, reach);
        PutAllUnion(bars, timeframe, before, bars[a..reach]);
        SliceClosed(bars, a, reach, later);
      case Extended(_) =>
        assert before[|before| - 1] in before && bars[k] in before;
        SliceClosed(bars, k + 1, reach, later);
        SliceOrdered(bars, timeframe, k + 1, reach);
        AppendOrdered(bars, timeframe, before, k, reach);
      case _ =>
    }
  }

  lemma SliceClosed(bars: seq<Candle>, a: nat, b: nat, now: Time)
    requires a <= b <= |bars| && b <= Greater(a, ClosedBy(bars, now))
    requires forall k :: 0 <= k < ClosedBy(bars, now) ==> CloseTime(bars[k]) <= now
    ensures forall c <- bars[a..b] :: CloseTime(c) <= now
  {
    hide ClosedBy, Length;
  }

  lemma AppendOrdered(bars: seq<Candle>, timeframe: Timeframe, before: seq<Candle>, k: nat, reach: nat)
    requires Printed(bars, timeframe) && ByTime(before) && before != [] && k < reach <= |bars|
             && bars[k] == before[|before| - 1]
    ensures ByTime(before + bars[k + 1..reach])
  {
    hide Length, Printed;
    var more := bars[k + 1..reach];
    SliceOrdered(bars, timeframe, k + 1, reach);
    forall i | 0 <= i < |more|
      ensures bars[k].time < more[i].time
    {
      assert more[i] == bars[k + 1 + i];
      IndexOrder(bars, timeframe, k + 1 + i, k);
    }
    forall j | 0 <= j < |before|
      ensures before[j].time <= bars[k].time
    {
      RowOrder(before, j, |before| - 1);
    }
  }

  /** A later target keeps the cache sound. */
  lemma CacheSoundLater(bars: seq<Candle>, cached: Option<Time>, start: Time, later: Time)
    requires CacheSound(bars, cached, start) && start <= later
    ensures CacheSound(bars, cached, later)
  {
    hide QueryTime;
    QueryTimeAscends(start, later);
  }

  lemma QueryTimeAscends(start: Time, later: Time)
    requires start <= later
    ensures QueryTime(start) <= QueryTime(later)
  {
    if start >= 0 {
      TruncationAscends(start, later);
    } else if later < 0 {
      TruncationAscends(-later, -start);
    }
  }

  lemma TruncationAscends(x: nat, y: nat)
    requires x <= y
    ensures x - x % 1000 <= y - y % 1000
  {
    assert x - x % 1000 == 1000 * (x / 1000) && y - y % 1000 == 1000 * (y / 1000);
    assert x / 1000 <= y / 1000;
  }

  // ---- all timeframes of one coin --------------------------------------------------------------

  /** What the collector relies on for one series before a run. */
  ghost predicate Ready(client: BinanceClient, s: Series, stored: seq<Candle>, cached: Option<Time>, start: Time,
                        now: Time) {
    && OpensAfterEpoch(client.Bars(s))
    && Sound(client.Bars(s), stored, now)
    && CacheSound(client.Bars(s), cached, start)
  }

  /** What one timeframe's turn achieves, judged from the state before the whole run. */
  ghost predicate Served(client: BinanceClient, s: Series, before: seq<Candle>, after: seq<Candle>, start: Time,
                         status: Status, now: Time)
  {
    var bars := client.Bars(s);
    && (status.Failed? ==> after == before)
    && (forall lo: nat :: SliceAt(bars, before, lo) ==>
          && (Contiguous(bars, after) <==>
                !(status == Backfilled(true) && before != []
                  && OpenedBefore(bars, QueryTime(start)) + 599_401 < lo))
          && (!status.Failed? && !status.Cut() ==> Complete(bars, after, start, status.Until(s.timeframe, now))))
  }

  lemma ServedBy(
    client: BinanceClient, s: Series, before: seq<Candle>, after: seq<Candle>, start: Time, status: Status, k: nat,
    reach: nat,
    began: Time, now: Time, later: Time, cached: Option<Time>)
    requires client.Valid() && began <= now <= later && Sound(client.Bars(s), before, now)
    requires Collected(client.Bars(s), before, after, start, status, k, reach, ClosedBy(client.Bars(s), now),
                       ClosedBy(client.Bars(s), later))
    requires CacheSound(client.Bars(s), cached, start)
    requires !status.Failed? && after != [] ==> Settled(after, cached, start)
    requires status.UpToDate? ==> after != [] && later < after[|after| - 1].time + 2 * Length(s.timeframe)
    ensures Served(client, s, before, after, start, status, began)
  {
    hide QueryTime, OpenedBefore, ClosedBy, Length, PutAll, Printed, Sound, CacheSound, Settled, Contiguous,
      Collected, SliceAt;
    var bars := client.Bars(s);
    client.BarsArePrinted(s);
    assert status.Failed? ==> after == before by {
      FailedKeeps(bars, before, after, start, status, k, reach, ClosedBy(bars, now), ClosedBy(bars, later));
    }
    forall lo: nat | SliceAt(bars, before, lo)
      ensures Contiguous(bars, after) <==>
              !(status == Backfilled(true) && before != []
                && OpenedBefore(bars, QueryTime(start)) + 599_401 < lo)
      ensures !status.Failed? && !status.Cut() ==> Complete(bars, after, start, status.Until(s.timeframe, began))
    {
      CollectionTearsIff(bars, s.timeframe, before, after, lo, start, status, k, reach, ClosedBy(bars, later), now);
      if !status.Failed? && !status.Cut() {
        CollectionCompletes(bars, s.timeframe, before, after, lo, start, status, k, reach, ClosedBy(bars, later), now,
                            later,
                            cached);
        CompleteEarlier(bars, s.timeframe, after, start, status.Until(s.timeframe, began),
                        status.Until(s.timeframe, now));
      }
    }
  }

  lemma CompleteEarlier(bars: seq<Candle>, timeframe: Timeframe, stored: seq<Candle>, start: Time, earlier: Time,
                        now: Time)
    requires Printed(bars, timeframe) && earlier <= now && Complete(bars, stored, start, now)
    ensures Complete(bars, stored, start, earlier)
  {
    hide QueryTime, OpenedBefore, ClosedBy;
    ClosedByGrows(bars, timeframe, earlier, now);
  }

  lemma FailedKeeps(
    bars: seq<Candle>, before: seq<Candle>, after: seq<Candle>, start: Time, status: Status, k: nat, reach: nat,
    closedThen: nat, closedNow: nat)
    requires Collected(bars, before, after, start, status, k, reach, closedThen, closedNow)
    ensures status.Failed? ==> after == before
  {
    hide QueryTime, OpenedBefore, PutAll;
  }

  /** No timeframe has a new closed bar or older history to fetch. */
  ghost predicate Quiet(candles: map<Series, seq<Candle>>, earliest: map<Series, Time>, symbol: string,
                        timeframes: seq<Timeframe>,
                        start: Time, now: Time)
  {
    forall t <- timeframes :: QuietSeries(candles, earliest, Series(symbol, t), start, now)
  }

  ghost predicate QuietSeries(candles: map<Series, seq<Candle>>, earliest: map<Series, Time>, s: Series, start: Time,
                              now: Time) {
    var stored := StoredIn(candles, s);
    && Settled(stored, EarliestIn(earliest, s), start)
    && now < stored[|stored| - 1].time + 2 * Length(s.timeframe)
  }

  lemma QuietBefore(candles: map<Series, seq<Candle>>, earliest: map<Series, Time>, symbol: string,
                    timeframes: seq<Timeframe>,
                    start: Time, now: Time, later: Time)
    requires now <= later && Quiet(candles, earliest, symbol, timeframes, start, later)
    ensures Quiet(candles, earliest, symbol, timeframes, start, now)
  {
    hide Length;
    forall t <- timeframes
      ensures QuietSeries(candles, earliest, Series(symbol, t), start, now)
    {
      assert QuietSeries(candles, earliest, Series(symbol, t), start, later);
    }
  }

  /** What one series can rely on after its turn: it is served, and unless the turn failed the
      head of its store is settled. */
  ghost predicate Turned(client: BinanceClient, s: Series, before: seq<Candle>, after: seq<Candle>,
                         cached: Option<Time>,
                         start: Time, status: Status, began: Time)
  {
    && Served(client, s, before, after, start, status, began)
    && (!status.Failed? && after != [] ==> Settled(after, cached, start))
  }

  /** One turn of the loop. */
  method TakeTurn(store: DataStore, client: BinanceClient, s: Series, start: Time, ghost began: Time)
      returns (status: Status)
    requires client.Valid() && began <= client.now
    requires Ready(client, s, store.Stored(s), store.Earliest(s), start, client.now)
    modifies store`candles, store`earliest, client
    ensures client.Valid() && old(client.now) <= client.now && OthersUnchanged(store, s)
    ensures Ready(client, s, store.Stored(s), store.Earliest(s), start, client.now)
    ensures Turned(client, s, old(store.Stored(s)), store.Stored(s), store.Earliest(s), start, status, began)
    ensures QuietSeries(old(store.candles), old(store.earliest), s, start, client.now) ==>
            client.requests == old(client.requests)
  {
    hide Ready, Served, Settled, Collected, BinanceClient.Valid, Length, QuietSeries, Sound, CacheSound,
      OpensAfterEpoch;
    ghost var stored, candles, earliest, turn := store.Stored(s), store.candles, store.earliest, client.now;
    ReadyMeans(client, s, stored, store.Earliest(s), start, turn);
    ghost var k, reach;
    status, k, reach := CollectOne(store, client, s, start);
    if QuietSeries(candles, earliest, s, start, client.now) {
      QuietSettled(stored, candles, earliest, s, start, client.now);
    }
    TurnTaken(client, s, stored, store.Stored(s), start, status, k, reach, began, turn, client.now, store.Earliest(s));
  }

  /** Every timeframe of the coin is ready. */
  ghost predicate AllReady(client: BinanceClient, candles: map<Series, seq<Candle>>, earliest: map<Series, Time>,
                           symbol: string,
                           timeframes: seq<Timeframe>, start: Time, now: Time)
  {
    forall t <- timeframes ::
      Ready(client, Series(symbol, t), StoredIn(candles, Series(symbol, t)), EarliestIn(earliest, Series(symbol, t)),
            start, now)
  }

  lemma AllReadyLater(client: BinanceClient, candles: map<Series, seq<Candle>>, earliest: map<Series, Time>,
                      symbol: string,
                      timeframes: seq<Timeframe>, start: Time, now: Time, start': Time, now': Time)
    requires AllReady(client, candles, earliest, symbol, timeframes, start, now) && start <= start' && now <= now'
    ensures AllReady(client, candles, earliest, symbol, timeframes, start', now')
  {
    hide Ready;
    forall t <- timeframes
      ensures Ready(client, Series(symbol, t), StoredIn(candles, Series(symbol, t)),
                    EarliestIn(earliest, Series(symbol, t)),
                    start', now')
    {
      ReadyLater(client, Series(symbol, t), StoredIn(candles, Series(symbol, t)),
                 EarliestIn(earliest, Series(symbol, t)),
                 start, now, start', now');
    }
  }

  /** One series changed and is ready; the rest stay so. */
  lemma AllReadyStill(client: BinanceClient, candles: map<Series, seq<Candle>>, earliest: map<Series, Time>,
                      candles': map<Series, seq<Candle>>, earliest': map<Series, Time>, symbol: string,
                      timeframes: seq<Timeframe>, t: Timeframe, start: Time, now: Time)
    requires AllReady(client, candles, earliest, symbol, timeframes, start, now)
    requires forall s: Series :: s != Series(symbol, t) ==>
               StoredIn(candles', s) == StoredIn(candles, s) && EarliestIn(earliest', s) == EarliestIn(earliest, s)
    requires Ready(client, Series(symbol, t), StoredIn(candles', Series(symbol, t)),
                   EarliestIn(earliest', Series(symbol, t)), start, now)
    ensures AllReady(client, candles', earliest', symbol, timeframes, start, now)
  {
    hide Ready, StoredIn, EarliestIn;
  }

  /** `_collect_and_store_binance`: one turn per timeframe; a failure in one leaves the others
      their turn, and no other series is touched. */
  method CollectAndStore(store: DataStore, client: BinanceClient, symbol: string, timeframes: seq<Timeframe>,
                         lookback: Time)
    returns (ghost start: Time, ghost statuses: seq<Status>)
    requires client.Valid()
    requires forall i, j :: 0 <= i < j < |timeframes| ==> timeframes[i] != timeframes[j]
    requires AllReady(client, store.candles, store.earliest, symbol, timeframes, client.now - lookback, client.now)
    modifies store`candles, store`earliest, client
    ensures client.Valid() && old(client.now) <= client.now
            && old(client.now) - lookback <= start <= client.now - lookback
    ensures forall s: Series :: s.market != symbol || s.timeframe !in timeframes ==>
              store.Stored(s) == old(store.Stored(s)) && store.Earliest(s) == old(store.Earliest(s))
    ensures Quiet(old(store.candles), old(store.earliest), symbol, timeframes, start, client.now) ==>
              client.requests == old(client.requests)
    ensures AllReady(client, store.candles, store.earliest, symbol, timeframes, start, client.now)
    ensures |statuses| == |timeframes|
    ensures forall i :: 0 <= i < |timeframes| ==>
              var s := Series(symbol, timeframes[i]);
              Turned(client, s, old(store.Stored(s)), store.Stored(s), store.Earliest(s), start, statuses[i],
                     old(client.now))
  {
    hide Ready, Turned, BinanceClient.Valid, Length, Quiet, QuietSeries, AllReady;
    ghost var began, candles0, earliest0 := client.now, store.candles, store.earliest;
    var now := client.Clock();
    var target := now - lookback;
    start, statuses := target, [];
    AllReadyLater(client, candles0, earliest0, symbol, timeframes, began - lookback, began, target, client.now);
    for i := 0 to |timeframes|
      invariant client.Valid() && now <= client.now && |statuses| == i
      invariant Quiet(candles0, earliest0, symbol, timeframes, target, client.now) ==>
                client.requests == old(client.requests)
      invariant forall s: Series :: s.market != symbol || s.timeframe !in timeframes[..i] ==>
                  StoredIn(store.candles, s) == StoredIn(candles0, s)
                    && EarliestIn(store.earliest, s) == EarliestIn(earliest0, s)
      invariant AllReady(client, store.candles, store.earliest, symbol, timeframes, target, client.now)
      invariant forall j :: 0 <= j < i ==>
                  var s := Series(symbol, timeframes[j]);
                  Turned(client, s, StoredIn(candles0, s), StoredIn(store.candles, s), EarliestIn(store.earliest, s),
                         start,
                         statuses[j], began)
    {
      var s := Series(symbol, timeframes[i]);
      assert timeframes[i] !in timeframes[..i];
      ghost var candles, earliest, turn, sent := store.candles, store.earliest, client.now, client.requests;
      ReadyOne(client, candles, earliest, symbol, timeframes, i, target, turn);
      var status := TakeTurn(store, client, s, target, began);
      if Quiet(candles0, earliest0, symbol, timeframes, target, client.now) {
        QuietBefore(candles0, earliest0, symbol, timeframes, target, turn, client.now);
        QuietOne(candles0, earliest0, symbol, timeframes, timeframes[i], target, client.now);
        QuietSame(candles0, earliest0, candles, earliest, s, target, client.now);
        assert client.requests == sent;
      }
      statuses := statuses + [status];
      AllReadyLater(client, candles, earliest, symbol, timeframes, target, turn, target, client.now);
      AllReadyStill(client, candles, earliest, store.candles, store.earliest, symbol, timeframes, timeframes[i],
                    target, client.now);
    }
  }

  lemma ReadyOne(client: BinanceClient, candles: map<Series, seq<Candle>>, earliest: map<Series, Time>, symbol: string,
                 timeframes: seq<Timeframe>, i: nat, start: Time, now: Time)
    requires AllReady(client, candles, earliest, symbol, timeframes, start, now) && i < |timeframes|
    ensures var s := Series(symbol, timeframes[i]);
            Ready(client, s, StoredIn(candles, s), EarliestIn(earliest, s), start, now)
  {
  }

  lemma QuietSame(candles: map<Series, seq<Candle>>, earliest: map<Series, Time>, candles': map<Series, seq<Candle>>,
                  earliest': map<Series, Time>, s: Series, start: Time, now: Time)
    requires StoredIn(candles', s) == StoredIn(candles, s) && EarliestIn(earliest', s) == EarliestIn(earliest, s)
    ensures QuietSeries(candles, earliest, s, start, now) ==> QuietSeries(candles', earliest', s, start, now)
  {
  }

  /** After a collection in which no turn failed, the next one asks nothing until some next bar
      can have closed. */
  lemma QuietAfterCollection(
    client: BinanceClient, before: map<Series, seq<Candle>>, candles: map<Series, seq<Candle>>,
    earliest: map<Series, Time>,
    symbol: string, timeframes: seq<Timeframe>, start: Time, statuses: seq<Status>, began: Time, later: Time, now: Time)
    requires |statuses| == |timeframes| && start <= later
    requires forall i :: 0 <= i < |timeframes| ==>
               var s := Series(symbol, timeframes[i]);
               && Turned(client, s, StoredIn(before, s), StoredIn(candles, s), EarliestIn(earliest, s), start,
                         statuses[i], began)
               && !statuses[i].Failed?
    ensures Quiet(candles, earliest, symbol, timeframes, later, now) <==>
            forall t <- timeframes ::
              var stored := StoredIn(candles, Series(symbol, t));
              stored != [] && now < stored[|stored| - 1].time + 2 * Length(t)
  {
    hide Served, Length;
    forall t <- timeframes
      ensures var stored := StoredIn(candles, Series(symbol, t));
              QuietSeries(candles, earliest, Series(symbol, t), later, now)
              <==> stored != [] && now < stored[|stored| - 1].time + 2 * Length(t)
    {
      var i :| 0 <= i < |timeframes| && timeframes[i] == t;
      var s := Series(symbol, timeframes[i]);
      assert Turned(client, s, StoredIn(before, s), StoredIn(candles, s), EarliestIn(earliest, s), start, statuses[i],
                    began);
    }
    if Quiet(candles, earliest, symbol, timeframes, later, now) {
      forall t <- timeframes
        ensures QuietSeries(candles, earliest, Series(symbol, t), later, now)
      {
      }
    }
  }

  /** A collection after one in which no turn failed, over the store that one left: it sends no request
      as long as no next bar can have closed. */
  method CollectAgain(
    store: DataStore, client: BinanceClient, symbol: string, timeframes: seq<Timeframe>, lookback: Time,
    ghost before: map<Series, seq<Candle>>, ghost start0: Time, ghost statuses0: seq<Status>, ghost began0: Time)
    returns (ghost start: Time, ghost statuses: seq<Status>)
    requires client.Valid()
    requires forall i, j :: 0 <= i < j < |timeframes| ==> timeframes[i] != timeframes[j]
    requires start0 <= client.now - lookback && |statuses0| == |timeframes|
    requires AllReady(client, store.candles, store.earliest, symbol, timeframes, start0, client.now)
    requires forall i :: 0 <= i < |timeframes| ==>
               var s := Series(symbol, timeframes[i]);
               && Turned(client, s, StoredIn(before, s), store.Stored(s), store.Earliest(s), start0, statuses0[i],
                         began0)
               && !statuses0[i].Failed?
    modifies store`candles, store`earliest, client
    ensures client.Valid() && old(client.now) <= client.now
    ensures (forall t <- timeframes ::
               var stored := old(store.Stored(Series(symbol, t)));
               stored != [] && client.now < stored[|stored| - 1].time + 2 * Length(t)) ==>
              client.requests == old(client.requests)
    ensures |statuses| == |timeframes|
    ensures forall i :: 0 <= i < |timeframes| ==>
              var s := Series(symbol, timeframes[i]);
              Turned(client, s, old(store.Stored(s)), store.Stored(s), store.Earliest(s), start, statuses[i],
                     old(client.now))
  {
    hide Ready, BinanceClient.Valid, Length, Quiet, AllReady, Turned;
    ghost var candles, earliest, now := store.candles, store.earliest, client.now;
    AllReadyLater(client, candles, earliest, symbol, timeframes, start0, now, now - lookback, now);
    start, statuses := CollectAndStore(store, client, symbol, timeframes, lookback);
    QuietAfterCollection(client, before, candles, earliest, symbol, timeframes, start0, statuses0, began0, start,
                         client.now);
  }

  lemma QuietOne(candles: map<Series, seq<Candle>>, earliest: map<Series, Time>, symbol: string,
                 timeframes: seq<Timeframe>,
                 t: Timeframe, start: Time, now: Time)
    requires t in timeframes && Quiet(candles, earliest, symbol, timeframes, start, now)
    ensures QuietSeries(candles, earliest, Series(symbol, t), start, now)
  {
  }

  lemma QuietSettled(stored: seq<Candle>, candles: map<Series, seq<Candle>>, earliest: map<Series, Time>, s: Series,
                     start: Time, now: Time)
    requires QuietSeries(candles, earliest, s, start, now) && stored == StoredIn(candles, s)
    ensures Settled(stored, EarliestIn(earliest, s), start)
    ensures stored != [] && now < stored[|stored| - 1].time + 2 * Length(s.timeframe)
  {
  }

  lemma ReadyMeans(client: BinanceClient, s: Series, stored: seq<Candle>, cached: Option<Time>, start: Time, now: Time)
    requires Ready(client, s, stored, cached, start, now)
    ensures OpensAfterEpoch(client.Bars(s)) && Sound(client.Bars(s), stored, now)
            && CacheSound(client.Bars(s), cached, start)
  {
  }

  lemma ReadyLater(client: BinanceClient, s: Series, stored: seq<Candle>, cached: Option<Time>, start: Time,
                   now: Time, start': Time, now': Time)
    requires Ready(client, s, stored, cached, start, now) && start <= start' && now <= now'
    ensures Ready(client, s, stored, cached, start', now')
  {
    hide CacheSound;
    CacheSoundLater(client.Bars(s), cached, start, start');
  }

  lemma TurnTaken(
    client: BinanceClient, s: Series, before: seq<Candle>, after: seq<Candle>, start: Time, status: Status, k: nat,
    reach: nat,
    began: Time, now: Time, later: Time, cached: Option<Time>)
    requires client.Valid() && began <= now <= later && Sound(client.Bars(s), before, now)
             && OpensAfterEpoch(client.Bars(s))
    requires Collected(client.Bars(s), before, after, start, status, k, reach, ClosedBy(client.Bars(s), now),
                       ClosedBy(client.Bars(s), later))
    requires CacheSound(client.Bars(s), cached, start)
    requires !status.Failed? && after != [] ==> Settled(after, cached, start)
    requires status.UpToDate? ==> after != [] && later < after[|after| - 1].time + 2 * Length(s.timeframe)
    ensures Served(client, s, before, after, start, status, began)
    ensures Ready(client, s, after, cached, start, later)
  {
    hide Served, Collected, CacheSound, Sound, OpensAfterEpoch, Settled, Length;
    client.BarsArePrinted(s);
    ServedBy(client, s, before, after, start, status, k, reach, began, now, later, cached);
    CollectionIsSound(client.Bars(s), s.timeframe, before, after, start, status, k, reach,
                      ClosedBy(client.Bars(s), now), now, later);
  }
}
