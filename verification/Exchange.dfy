/** The exchange's kline endpoint and the paginated fetch over it (src/binance_client.py). */
module Exchange {
  import opened Domain

  /** Most bars one response carries, and most pages one fetch asks for: 599_401 bars in all, 999 new
      ones a page and the first. */
  const PAGE_LIMIT: nat := 1000
  const MAX_PAGES: nat := 600

  /** One market on one timeframe. */
  datatype Series = Series(market: string, timeframe: Timeframe)

  // ---- the history the exchange will ever print ------------------------------------------

  /** Least time between two openings: the bar's length, but a month has 28 days or more. */
  function Gap(timeframe: Timeframe): (gap: Time)
    ensures MINUTE <= gap <= Length(timeframe)
    ensures timeframe != M1 ==> 15 * MINUTE <= gap
    ensures timeframe != MO1 ==> gap == Length(timeframe)
  {
    if timeframe == MO1 then 28 * DAY else Length(timeframe)
  }

  /** Bars of one timeframe in order, a whole bar apart, that open on whole milliseconds. */
  ghost predicate Printed(bars: seq<Candle>, timeframe: Timeframe) {
    && (forall k :: 0 <= k < |bars| ==> bars[k].timeframe == timeframe && bars[k].time % 1000 == 0)
    && (forall j, k :: 0 <= j < k < |bars| ==> bars[j].time + Gap(timeframe) <= bars[k].time)
  }

  /** Number of bars that open before `moment`. */
  function OpenedBefore(bars: seq<Candle>, moment: Time): (n: nat)
    ensures n <= |bars|
  {
    if bars == [] then 0
    else if bars[|bars| - 1].time < moment then |bars|
    else OpenedBefore(bars[..|bars| - 1], moment)
  }

  /** Number of bars closed at `now`. */
  function ClosedBy(bars: seq<Candle>, now: Time): (n: nat)
    ensures n <= |bars|
  {
    if bars == [] then 0
    else if CloseTime(bars[|bars| - 1]) <= now then |bars|
    else ClosedBy(bars[..|bars| - 1], now)
  }

  lemma IndexOrder(bars: seq<Candle>, timeframe: Timeframe, j: nat, k: nat)
    requires Printed(bars, timeframe) && j < |bars| && k < |bars|
    ensures j <= k <==> bars[j].time <= bars[k].time
  {
    assert Gap(timeframe) > 0;
  }

  lemma {:induction false} OpenedBeforeSplits(bars: seq<Candle>, moment: Time)
    ensures var n := OpenedBefore(bars, moment);
            && (forall k :: n <= k < |bars| ==> moment <= bars[k].time)
            && (n > 0 ==> bars[n - 1].time < moment)
  {
    if bars != [] && bars[|bars| - 1].time >= moment {
      OpenedBeforeSplits(bars[..|bars| - 1], moment);
    }
  }

  lemma {:induction false} ClosedBySplits(bars: seq<Candle>, now: Time)
    ensures var n := ClosedBy(bars, now);
            && (forall k :: n <= k < |bars| ==> now < CloseTime(bars[k]))
            && (n > 0 ==> CloseTime(bars[n - 1]) <= now)
  {
    if bars != [] && CloseTime(bars[|bars| - 1]) > now {
      ClosedBySplits(bars[..|bars| - 1], now);
    }
  }

  lemma OpenedBeforeIs(bars: seq<Candle>, timeframe: Timeframe, moment: Time, n: nat)
    requires Printed(bars, timeframe) && n <= |bars|
    ensures OpenedBefore(bars, moment) == n <==>
            (n > 0 ==> bars[n - 1].time < moment) && (n < |bars| ==> moment <= bars[n].time)
  {
    OpenedBeforeSplits(bars, moment);
    var m := OpenedBefore(bars, moment);
    if m < n && m < n - 1 {
      assert bars[m].time < bars[n - 1].time;
    }
    if n < m && n < m - 1 {
      assert bars[n].time < bars[m - 1].time;
    }
  }

  lemma ClosedByGrows(bars: seq<Candle>, timeframe: Timeframe, now: Time, later: Time)
    requires Printed(bars, timeframe) && now <= later
    ensures ClosedBy(bars, now) <= ClosedBy(bars, later)
  {
    ClosedBySplits(bars, now);
    ClosedBySplits(bars, later);
    var n, m := ClosedBy(bars, now), ClosedBy(bars, later);
    assert n > 0 ==> CloseTime(bars[n - 1]) <= later;
  }

  // ---- one response ----------------------------------------------------------------------

  /** The query parameter: whole milliseconds, truncated toward zero. */
  function QueryTime(moment: Time): Time {
    if moment >= 0 then moment - moment % 1000 else -(-moment - -moment % 1000)
  }

  /** The query asks for the nearest whole millisecond on the way to zero. */
  lemma QueryTimeIs(moment: Time)
    ensures QueryTime(moment) % 1000 == 0
    ensures moment >= 0 ==> moment - 1000 < QueryTime(moment) <= moment
    ensures moment < 0 ==> moment <= QueryTime(moment) < moment + 1000
  {
    var size := if moment < 0 then -moment else moment;
    assert size == size / 1000 * 1000 + size % 1000;
    Whole(size / 1000);
    Whole(-(size / 1000));
  }

  lemma Whole(k: int)
    ensures k * 1000 % 1000 == 0
  {
  }

  /** `drop_unclosed`. */
  function DropUnclosed(candles: seq<Candle>, now: Time): (kept: seq<Candle>)
    ensures |kept| <= |candles|
  {
    if candles == [] then []
    else if CloseTime(candles[0]) <= now then [candles[0]] + DropUnclosed(candles[1..], now)
    else DropUnclosed(candles[1..], now)
  }

  function Lesser(a: nat, b: nat): nat { if a < b then a else b }

  function Greater(a: nat, b: nat): nat { if a < b then b else a }

  /** What `get_klines` returns: of the bars already opened, the first `limit` at or after the
      start, minus the one still forming. */
  function Page(bars: seq<Candle>, start: Time, limit: nat, now: Time): seq<Candle> {
    var a, started := OpenedBefore(bars, QueryTime(start)), OpenedBefore(bars, now + 1);
    if started <= a then [] else DropUnclosed(bars[a..Lesser(a + Lesser(limit, PAGE_LIMIT), started)], now)
  }

  lemma {:induction false} DropUnclosedConcat(x: seq<Candle>, y: seq<Candle>, now: Time)
    ensures DropUnclosed(x + y, now) == DropUnclosed(x, now) + DropUnclosed(y, now)
  {
    if x == [] {
      assert x + y == y;
    } else {
      assert (x + y)[1..] == x[1..] + y;
      DropUnclosedConcat(x[1..], y, now);
    }
  }

  lemma {:induction false} DropUnclosedUniform(x: seq<Candle>, now: Time)
    ensures (forall k :: 0 <= k < |x| ==> CloseTime(x[k]) <= now) ==> DropUnclosed(x, now) == x
    ensures (forall k :: 0 <= k < |x| ==> now < CloseTime(x[k])) ==> DropUnclosed(x, now) == []
  {
    if x != [] {
      DropUnclosedUniform(x[1..], now);
    }
  }

  /** The closed bars come first. */
  lemma ClosedOnesFirst(bars: seq<Candle>, timeframe: Timeframe, now: Time)
    requires Printed(bars, timeframe)
    ensures forall k :: 0 <= k < ClosedBy(bars, now) ==> CloseTime(bars[k]) <= now
  {
    ClosedBySplits(bars, now);
    var n := ClosedBy(bars, now);
    assert forall k :: 0 <= k && k + 1 < n ==> bars[k].time < bars[n - 1].time;
  }

  lemma DropUnclosedTake(bars: seq<Candle>, timeframe: Timeframe, a: nat, b: nat, now: Time)
    requires Printed(bars, timeframe) && a <= b <= |bars|
    ensures DropUnclosed(bars[a..b], now) == bars[a..Greater(a, Lesser(b, ClosedBy(bars, now)))]
  {
    hide Length, DropUnclosed, ClosedBy, Printed;
    var m := Greater(a, Lesser(b, ClosedBy(bars, now)));
    var closed, open := bars[a..m], bars[m..b];
    assert bars[a..b] == closed + open;
    ClosedOnesFirst(bars, timeframe, now);
    ClosedBySplits(bars, now);
    forall k | 0 <= k < |closed|
      ensures CloseTime(closed[k]) <= now
    {
      assert closed[k] == bars[a + k];
    }
    forall k | 0 <= k < |open|
      ensures now < CloseTime(open[k])
    {
      assert open[k] == bars[m + k];
    }
    DropUnclosedConcat(closed, open, now);
    DropUnclosedUniform(closed, now);
    DropUnclosedUniform(open, now);
  }

  /** A bar that has closed has opened. */
  lemma ClosedHaveOpened(bars: seq<Candle>, now: Time)
    ensures ClosedBy(bars, now) <= OpenedBefore(bars, now + 1)
  {
    ClosedBySplits(bars, now);
    OpenedBeforeSplits(bars, now + 1);
    var closed, started := ClosedBy(bars, now), OpenedBefore(bars, now + 1);
    assert closed > 0 ==> bars[closed - 1].time < now + 1;
  }

  /** A response is a slice of the closed history, cut only by the limit. */
  lemma PageIs(bars: seq<Candle>, timeframe: Timeframe, start: Time, limit: nat, now: Time)
    requires Printed(bars, timeframe)
    ensures var a := OpenedBefore(bars, QueryTime(start));
            Page(bars, start, limit, now)
            == bars[a..Greater(a, Lesser(a + Lesser(limit, PAGE_LIMIT), ClosedBy(bars, now)))]
  {
    hide Length, DropUnclosed, ClosedBy, QueryTime, OpenedBefore;
    var a, started := OpenedBefore(bars, QueryTime(start)), OpenedBefore(bars, now + 1);
    ClosedHaveOpened(bars, now);
    if a < started {
      DropUnclosedTake(bars, timeframe, a, Lesser(a + Lesser(limit, PAGE_LIMIT), started), now);
    }
  }

  /** A bar's own opening time finds the bar. */
  lemma CursorFinds(bars: seq<Candle>, timeframe: Timeframe, k: nat)
    requires Printed(bars, timeframe) && k < |bars| && bars[k].time >= 0
    ensures QueryTime(bars[k].time) == bars[k].time
    ensures OpenedBefore(bars, QueryTime(bars[k].time)) == k
  {
    OpenedBeforeIs(bars, timeframe, bars[k].time, k);
    assert k > 0 ==> bars[k - 1].time < bars[k].time;
  }

  // ---- the paginated fetch ---------------------------------------------------------------

  /** The bars `get_klines_since` still counts as new. */
  function NewerThan(candles: seq<Candle>, collected: seq<Candle>): seq<Candle> {
    if candles == [] then []
    else if collected == [] || candles[0].time > collected[|collected| - 1].time then
      [candles[0]] + NewerThan(candles[1..], collected)
    else NewerThan(candles[1..], collected)
  }

  lemma {:induction false} NewerThanConcat(x: seq<Candle>, y: seq<Candle>, collected: seq<Candle>)
    ensures NewerThan(x + y, collected) == NewerThan(x, collected) + NewerThan(y, collected)
  {
    if x == [] {
      assert x + y == y;
    } else {
      assert (x + y)[1..] == x[1..] + y;
      NewerThanConcat(x[1..], y, collected);
    }
  }

  lemma {:induction false} NewerThanUniform(x: seq<Candle>, collected: seq<Candle>)
    ensures collected == [] || (forall k :: 0 <= k < |x| ==> x[k].time > collected[|collected| - 1].time) ==>
              NewerThan(x, collected) == x
  {
    if x != [] {
      NewerThanUniform(x[1..], collected);
    }
  }

  /** Of a page that starts at the last collected bar, everything else is new. */
  lemma NewerThanLast(bars: seq<Candle>, timeframe: Timeframe, a: nat, b: nat, e: nat)
    requires Printed(bars, timeframe) && a < b <= e <= |bars|
    ensures NewerThan(bars[b - 1..e], bars[a..b]) == bars[b..e]
  {
    hide Length;
    assert bars[b - 1..e] == [bars[b - 1]] + bars[b..e];
    var collected := bars[a..b];
    assert collected != [] && collected[|collected| - 1] == bars[b - 1];
    NewerThanConcat([bars[b - 1]], bars[b..e], collected);
    NewerThanUniform(bars[b..e], collected);
  }

  /** The next response is bars[k..e], and bars[b..e] of it are new, when bars[a..b] are
      collected and the cursor is the query start (nothing collected) or the last collected bar. */
  lemma NextPage(bars: seq<Candle>, timeframe: Timeframe, a: nat, b: nat, cursor: Time, now: Time)
      returns (k: nat, e: nat)
    requires Printed(bars, timeframe) && (bars != [] ==> bars[0].time >= 0)
    requires a <= b <= |bars|
    requires if a == b then OpenedBefore(bars, QueryTime(cursor)) == a
             else cursor == bars[b - 1].time && b <= ClosedBy(bars, now)
    ensures k == if a == b then a else b - 1
    ensures b <= e <= |bars| && e == Greater(b, Lesser(k + PAGE_LIMIT, ClosedBy(bars, now)))
    ensures Page(bars, cursor, PAGE_LIMIT, now) == bars[k..e]
    ensures NewerThan(bars[k..e], bars[a..b]) == bars[b..e]
  {
    hide Length, Page, ClosedBy, QueryTime, OpenedBefore, NewerThan;
    k := if a == b then a else b - 1;
    e := Greater(b, Lesser(k + PAGE_LIMIT, ClosedBy(bars, now)));
    if a < b {
      assert b > 1 ==> bars[0].time < bars[b - 1].time;
      CursorFinds(bars, timeframe, k);
    }
    PageIs(bars, timeframe, cursor, PAGE_LIMIT, now);
    if a < b {
      NewerThanLast(bars, timeframe, a, b, e);
    } else {
      assert bars[a..b] == [];
      NewerThanUniform(bars[a..e], []);
    }
  }

  class BinanceClient {
    /** Everything each market will ever print. */
    const history: map<Series, seq<Candle>>
    /** The wall clock; it may advance at any call. */
    var now: Time
    /** Kline requests sent so far. */
    var requests: nat

    ghost predicate Valid() {
      forall s <- history :: Printed(history[s], s.timeframe) && (history[s] != [] ==> history[s][0].time >= 0)
    }

    function Bars(s: Series): seq<Candle> {
      if s in history then history[s] else []
    }

    lemma BarsArePrinted(s: Series)
      requires Valid()
      ensures Printed(Bars(s), s.timeframe) && (Bars(s) != [] ==> Bars(s)[0].time >= 0)
      ensures s in history ==> Bars(s) == history[s]
    {
    }

    constructor (history: map<Series, seq<Candle>>, now: Time)
      ensures this.history == history && this.now == now && requests == 0
    {
      this.history, this.now, this.requests := history, now, 0;
    }

    /** Reads the clock. */
    method Clock() returns (t: Time)
      modifies this`now
      ensures t == now && old(now) <= now
    {
      var elapsed :| elapsed >= 0;
      now := now + elapsed;
      t := now;
    }

    /** `get_klines`: one request, which may fail. */
    method GetKlines(s: Series, start: Time, limit: nat) returns (r: Option<seq<Candle>>)
      modifies this
      ensures old(now) <= now && requests == old(requests) + 1
      ensures r.Some? ==> r.value == Page(Bars(s), start, limit, now)
    {
      var elapsed :| elapsed >= 0;
      now := now + elapsed;
      requests := requests + 1;
      var fails: bool := *;
      r := if fails then None else Some(Page(Bars(s), start, limit, now));
    }

    /** `get_klines_since`: overlapping pages from `start`, at most `maxRequests` of them.
        Success returns a slice that begins at the first bar of the query. Without the guard
        it ends at the closed bars of the last request; the guard cuts it after exactly
        999 * maxRequests + 1 bars. The number of requests is exact. */
    method GetKlinesSince(s: Series, start: Time, maxRequests: nat) returns (r: Option<seq<Candle>>, truncated: bool)
      requires Valid() && maxRequests > 0
      modifies this
      ensures Valid() && old(now) <= now && old(requests) < requests <= old(requests) + maxRequests
      ensures r.Some? ==>
                var a, n := OpenedBefore(Bars(s), QueryTime(start)), |r.value|;
                && SliceFrom(Bars(s), start, r.value)
                && FetchEnds(a, n, ClosedBy(Bars(s), old(now)), ClosedBy(Bars(s), now), requests - old(requests),
                             truncated)
                && (truncated ==> requests - old(requests) == maxRequests)
    {
      hide Length, Page, ClosedBy, OpenedBefore, NewerThan, QueryTime, Printed, SliceFrom, PagesFor;
      BarsArePrinted(s);
      var collected: seq<Candle> := [];
      var cursor := start;
      truncated := true;
      ghost var bars, closedThen := Bars(s), ClosedBy(Bars(s), now);
      NothingGathered(bars, start, closedThen);
      for page := 0 to maxRequests
        invariant Valid() && old(now) <= now && requests == old(requests) + page
        invariant Gathered(bars, start, collected, cursor, closedThen, ClosedBy(bars, now), page)
      {
        ghost var before := now;
        var raw := GetKlines(s, cursor, PAGE_LIMIT);
        if raw.None? {
          return None, false;
        }
        ClosedByGrows(bars, s.timeframe, before, now);
        PageStep(bars, s.timeframe, start, collected, cursor, closedThen, ClosedBy(bars, before), now, page);
        if raw.value == [] {
          truncated := false;
          break;
        }
        var newer := NewerThan(raw.value, collected);
        if newer == [] {
          truncated := false;
          break;
        }
        collected := collected + newer;
        if |raw.value| < PAGE_LIMIT {
          truncated := false;
          break;
        }
        cursor := collected[|collected| - 1].time;
      }
      r := Some(collected);
      if truncated {
        GatheredAll(bars, start, collected, cursor, closedThen, ClosedBy(bars, now), maxRequests);
      }
    }
  }

  /** Requests needed for n bars: each page of 1000 but the first repeats one bar. */
  function PagesFor(n: nat): nat {
    if n == 0 then 1 else (n - 1) / 999 + 1
  }

  /** n bars from index a were fetched with `pages` requests while the closed history grew from
      closedThen to closedNow bars. Stopped by a short page, they reach the closed history; with
      only full pages they are exactly 999 * pages + 1. */
  ghost predicate FetchEnds(a: nat, n: nat, closedThen: nat, closedNow: nat, pages: nat, full: bool) {
    && a + n <= Greater(a, closedNow)
    && if full then n == 999 * pages + 1 && a + n <= closedNow
       else closedThen <= a + n && pages == PagesFor(n) && n <= 999 * pages
  }

  /** One more page after `page` full ones: cut by the limit it is full again, otherwise it
      finishes the fetch. */
  lemma AfterPage(a: nat, n: nat, k: nat, e: nat, closedThen: nat, closedNow: nat, page: nat)
    requires closedThen <= closedNow
    requires if page == 0 then n == 0 else n == 999 * page + 1 && a + n <= closedNow
    requires k == if n == 0 then a else a + n - 1
    requires e == Greater(a + n, Lesser(k + PAGE_LIMIT, closedNow))
    ensures FetchEnds(a, e - a, closedThen, closedNow, page + 1, e - k == PAGE_LIMIT)
  {
  }

  /** `candles` are consecutive bars from the first one of a query for `start`. */
  ghost predicate SliceFrom(bars: seq<Candle>, start: Time, candles: seq<Candle>) {
    var a := OpenedBefore(bars, QueryTime(start));
    a + |candles| <= |bars| && candles == bars[a..a + |candles|]
  }

  /** The loop state after `page` full pages. */
  ghost predicate Gathered(
    bars: seq<Candle>, start: Time, collected: seq<Candle>, cursor: Time, closedThen: nat, closedNow: nat, page: nat)
  {
    && SliceFrom(bars, start, collected)
    && closedThen <= closedNow
    && if page == 0 then collected == [] && cursor == start
       else && |collected| == 999 * page + 1
            && OpenedBefore(bars, QueryTime(start)) + |collected| <= closedNow
            && cursor == collected[|collected| - 1].time
  }

  lemma NothingGathered(bars: seq<Candle>, start: Time, closed: nat)
    ensures Gathered(bars, start, [], start, closed, closed, 0)
  {
    hide OpenedBefore, QueryTime;
  }

  lemma GatheredAll(
    bars: seq<Candle>, start: Time, collected: seq<Candle>, cursor: Time, closedThen: nat, closedNow: nat, page: nat)
    requires page > 0 && Gathered(bars, start, collected, cursor, closedThen, closedNow, page)
    ensures SliceFrom(bars, start, collected)
    ensures FetchEnds(OpenedBefore(bars, QueryTime(start)), |collected|, closedThen, closedNow, page, true)
  {
    hide OpenedBefore, QueryTime;
  }

  /** One request: either the fetch is finished or one more full page is gathered. */
  lemma PageStep(
    bars: seq<Candle>, timeframe: Timeframe, start: Time, collected: seq<Candle>, cursor: Time,
    closedThen: nat, closedBefore: nat, now: Time, page: nat)
    requires Printed(bars, timeframe) && (bars != [] ==> bars[0].time >= 0)
    requires Gathered(bars, start, collected, cursor, closedThen, closedBefore, page)
    requires closedBefore <= ClosedBy(bars, now)
    ensures var raw := Page(bars, cursor, PAGE_LIMIT, now);
            var newer := NewerThan(raw, collected);
            && (raw == [] ==> newer == [])
            && (newer == [] ==> |raw| < PAGE_LIMIT)
            && Stepped(bars, start, collected + newer, closedThen, ClosedBy(bars, now), page + 1, |raw| == PAGE_LIMIT)
            && |raw| <= PAGE_LIMIT
  {
    hide Length, Page, ClosedBy, OpenedBefore, NewerThan, QueryTime, Printed, PagesFor, FetchEnds, Greater, Lesser;
    var a, n := OpenedBefore(bars, QueryTime(start)), |collected|;
    var k, e := NextPage(bars, timeframe, a, a + n, cursor, now);
    AfterPage(a, n, k, e, closedThen, ClosedBy(bars, now), page);
    var all := collected + bars[a + n..e];
    assert all == bars[a..e];
    SliceIs(bars, start, all, e);
  }

  lemma SliceIs(bars: seq<Candle>, start: Time, candles: seq<Candle>, e: nat)
    requires OpenedBefore(bars, QueryTime(start)) <= e <= |bars|
    requires candles == bars[OpenedBefore(bars, QueryTime(start))..e]
    ensures |candles| == e - OpenedBefore(bars, QueryTime(start))
    ensures SliceFrom(bars, start, candles)
  {
    hide OpenedBefore, QueryTime;
  }

  /** The loop state after a response that was full, or the result after one that was short. */
  ghost predicate Stepped(
    bars: seq<Candle>, start: Time, all: seq<Candle>, closedThen: nat, closedNow: nat, page: nat, full: bool)
  {
    && SliceFrom(bars, start, all)
    && closedThen <= closedNow
    && (full ==> all != [])
    && FetchEnds(OpenedBefore(bars, QueryTime(start)), |all|, closedThen, closedNow, page, full)
  }

  // ---- what the guard lets through ---------------------------------------------------------

  /** With the clock standing still, the fetch returns exactly the first 999 * maxRequests + 1
      closed bars of the query, so it is complete if and only if there are no more than that. */
  lemma CompleteIff(a: nat, n: nat, closed: nat, pages: nat, maxRequests: nat, full: bool)
    requires pages <= maxRequests && (full ==> pages == maxRequests) && 0 < pages
    requires FetchEnds(a, n, closed, closed, pages, full)
    ensures n == Lesser(Greater(a, closed) - a, 999 * maxRequests + 1)
    ensures a + n == Greater(a, closed) <==> closed <= a + 999 * maxRequests + 1
    ensures full <==> closed > a + 999 * maxRequests
  {
  }

  /** Bars of one timeframe are at least one length apart. */
  lemma {:induction false} BarsApart(bars: seq<Candle>, timeframe: Timeframe, a: nat, b: nat, length: Time)
    requires Printed(bars, timeframe) && a <= b < |bars| && length <= Gap(timeframe)
    ensures Lasting(b - a, length) <= bars[b].time - bars[a].time
    decreases b - a
  {
    hide Length, Lasting;
    if a == b {
      LastingStep(0, length);
    } else {
      BarsApart(bars, timeframe, a, b - 1, length);
      LastingStep(b - a, length);
    }
  }

  /** Time that n bars take. */
  function Lasting(n: int, length: Time): Time { n * length }

  lemma LastingStep(n: int, length: Time)
    ensures Lasting(0, length) == 0
    ensures Lasting(n, length) == Lasting(n - 1, length) + length
  {
  }

  /** Closed bars of a query: each needs its own length between the query time and the clock. */
  lemma ClosedInSpan(bars: seq<Candle>, timeframe: Timeframe, start: Time, now: Time, length: Time)
    requires Printed(bars, timeframe) && length <= Gap(timeframe)
    requires OpenedBefore(bars, QueryTime(start)) < ClosedBy(bars, now)
    ensures Lasting(ClosedBy(bars, now) - OpenedBefore(bars, QueryTime(start)), length) <= now - QueryTime(start)
  {
    hide Length, Gap, QueryTime, OpenedBefore, ClosedBy, Lasting;
    var a, closed := OpenedBefore(bars, QueryTime(start)), ClosedBy(bars, now);
    OpenedBeforeSplits(bars, QueryTime(start));
    ClosedBySplits(bars, now);
    BarsApart(bars, timeframe, a, closed - 1, length);
    LastingStep(closed - a, length);
  }

  /** 600 pages cover every collected timeframe: any query reaching back at most 6243 days, so
      in particular the configured 5840 days and the 210 extra days of the warm-up, ends
      before the guard. */
  lemma LookbackFits(bars: seq<Candle>, timeframe: Timeframe, start: Time, now: Time)
    requires Printed(bars, timeframe) && timeframe != M1 && QueryTime(start) <= now <= QueryTime(start) + 6243 * DAY
    ensures ClosedBy(bars, now) <= OpenedBefore(bars, QueryTime(start)) + 599_400
  {
    hide QueryTime, OpenedBefore, ClosedBy;
    if OpenedBefore(bars, QueryTime(start)) < ClosedBy(bars, now) {
      ClosedInSpan(bars, timeframe, start, now, 15 * MINUTE);
    }
  }

  /** Gap-free bars from index a on. */
  ghost predicate GapFree(bars: seq<Candle>, timeframe: Timeframe, a: nat) {
    forall k :: a <= k < |bars| ==> bars[k].time == bars[a].time + (k - a) * Length(timeframe)
  }

  /** The monitor's three pages of minutes. Every closed minute since the entry is seen exactly
      while there are at most 2998 of them, so certainly while fewer than 2999 minutes have passed,
      and over gap-free minutes exactly then. A 48-hour hold has 2880, so a position announced 119
      minutes or more after its entry is watched incompletely at the end of its hold. */
  lemma MonitorReach(bars: seq<Candle>, entry: Time, now: Time, n: nat, pages: nat, full: bool)
    requires Printed(bars, M1) && QueryTime(entry) <= now
    requires 0 < pages <= 3 && (full ==> pages == 3)
    requires FetchEnds(OpenedBefore(bars, QueryTime(entry)), n, ClosedBy(bars, now), ClosedBy(bars, now), pages, full)
    ensures var a, closed := OpenedBefore(bars, QueryTime(entry)), ClosedBy(bars, now);
            && (a + n == Greater(a, closed) <==> closed - a <= 2998)
            && (now - QueryTime(entry) < 2999 * MINUTE ==> a + n == Greater(a, closed))
            && (MinutesFrom(bars, entry, now) ==>
                (a + n == Greater(a, closed) <==> now - QueryTime(entry) < 2999 * MINUTE))
  {
    hide OpenedBefore, ClosedBy, QueryTime, Length, FetchEnds, Printed, MinutesFrom;
    var a, closed := OpenedBefore(bars, QueryTime(entry)), ClosedBy(bars, now);
    CompleteIff(a, n, closed, pages, 3, full);
    if a < closed {
      ClosedInSpan(bars, M1, entry, now, MINUTE);
      MinutesLast(closed - a);
    }
    if MinutesFrom(bars, entry, now) {
      MinutesClosed(bars, entry, now);
    }
  }

  lemma MinutesLast(n: int)
    ensures Lasting(n, MINUTE) == n * MINUTE
  {
  }

  /** The exchange prints every minute from the entry until after `now`. */
  ghost predicate MinutesFrom(bars: seq<Candle>, entry: Time, now: Time) {
    var a := OpenedBefore(bars, QueryTime(entry));
    && a < |bars| && bars[a].time == QueryTime(entry) && GapFree(bars, M1, a)
    && now < CloseTime(bars[|bars| - 1])
  }

  lemma MinutesClosed(bars: seq<Candle>, entry: Time, now: Time)
    requires Printed(bars, M1) && QueryTime(entry) <= now && MinutesFrom(bars, entry, now)
    ensures var a, closed := OpenedBefore(bars, QueryTime(entry)), ClosedBy(bars, now);
            closed - a <= 2998 <==> now - QueryTime(entry) < 2999 * MINUTE
  {
    hide OpenedBefore, ClosedBy, QueryTime;
    var a, closed := OpenedBefore(bars, QueryTime(entry)), ClosedBy(bars, now);
    ClosedBySplits(bars, now);
    assert closed < |bars|;
    assert bars[closed].time + Length(M1) <= bars[a].time || a <= closed;
    assert bars[closed].time == bars[a].time + (closed - a) * MINUTE;
    assert a < closed ==> bars[closed - 1].time == bars[a].time + (closed - 1 - a) * MINUTE;
  }
}
