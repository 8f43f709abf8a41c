/** The two instants of one request (src/binance_client.py, `get_klines`; src/data_store.py,
    `drop_unclosed`): the exchange prints its response first, the clock is read afterwards. A bar that
    closes in between is kept with the prices it had while forming. */
module PartialBars {
  import opened Domain
  import opened Exchange
  import opened CandleTable
  import opened Collector

  /** `forming` is the next bar as far as it got: same place, other prices. */
  ghost predicate Forms(bars: seq<Candle>, forming: Candle, at: Time) {
    var closed := ClosedBy(bars, at);
    && closed < |bars|
    && forming.timeframe == bars[closed].timeframe && forming.time == bars[closed].time
    && forming != bars[closed]
  }

  /** What the exchange shows at `at`: closed bars as they are, the next one as far as it got. */
  function ShownAt(bars: seq<Candle>, forming: Candle, at: Time): (shown: seq<Candle>)
    ensures |shown| == |bars|
  {
    var closed := ClosedBy(bars, at);
    if closed < |bars| then bars[closed := forming] else bars
  }

  /** The response: of the bars already opened, the first `limit` at or after the start. */
  function Response(bars: seq<Candle>, forming: Candle, start: Time, limit: nat, at: Time): seq<Candle> {
    var a, started := OpenedBefore(bars, QueryTime(start)), OpenedBefore(bars, at + 1);
    if started <= a then [] else ShownAt(bars, forming, at)[a..Lesser(a + Lesser(limit, PAGE_LIMIT), started)]
  }

  /** The bar was forming at `at`, lies in the response, and has closed when the clock is read. */
  predicate ClosesBetween(bars: seq<Candle>, start: Time, limit: nat, at: Time, now: Time) {
    var a, closed := OpenedBefore(bars, QueryTime(start)), ClosedBy(bars, at);
    && a <= closed < a + Lesser(limit, PAGE_LIMIT)
    && closed < OpenedBefore(bars, at + 1)
    && CloseTime(bars[closed]) <= now
  }

  /** At most one bar has opened and not closed. */
  lemma OneForms(bars: seq<Candle>, timeframe: Timeframe, at: Time)
    requires Printed(bars, timeframe) && timeframe != MO1
    ensures ClosedBy(bars, at) <= OpenedBefore(bars, at + 1) <= ClosedBy(bars, at) + 1
  {
    hide ClosedBy, OpenedBefore;
    ClosedHaveOpened(bars, at);
    ClosedBySplits(bars, at);
    OpenedBeforeSplits(bars, at + 1);
    var closed, started := ClosedBy(bars, at), OpenedBefore(bars, at + 1);
    assert forall k :: closed < k < |bars| ==> CloseTime(bars[closed]) <= bars[k].time;
    assert started > 0 ==> bars[started - 1].time <= at;
  }

  /** What `get_klines` keeps is what one instant would give, and the forming bar exactly if it closes
      between the two. */
  lemma PartialKeptIff(bars: seq<Candle>, timeframe: Timeframe, forming: Candle, start: Time, limit: nat, at: Time,
                       now: Time)
    requires Printed(bars, timeframe) && timeframe != MO1 && at <= now
    requires ClosedBy(bars, at) < |bars| ==> Forms(bars, forming, at)
    ensures DropUnclosed(Response(bars, forming, start, limit, at), now)
            == Page(bars, start, limit, at) + if ClosesBetween(bars, start, limit, at, now) then [forming] else []
  {
    hide ClosedBy, OpenedBefore, QueryTime, DropUnclosed, Page, Length, Printed, ShownAt;
    var a, closed, started := OpenedBefore(bars, QueryTime(start)), ClosedBy(bars, at), OpenedBefore(bars, at + 1);
    var end := Lesser(a + Lesser(limit, PAGE_LIMIT), started);
    OneForms(bars, timeframe, at);
    PageIs(bars, timeframe, start, limit, at);
    DropNothing(now);
    if a < started {
      if end <= closed {
        WholeKept(bars, timeframe, forming, a, end, at, now);
      } else {
        LastKept(bars, timeframe, forming, a, at, now);
      }
    }
  }

  /** A response that ends before the forming bar is kept whole. */
  lemma WholeKept(bars: seq<Candle>, timeframe: Timeframe, forming: Candle, a: nat, end: nat, at: Time, now: Time)
    requires Printed(bars, timeframe) && at <= now && a <= end <= ClosedBy(bars, at)
    ensures DropUnclosed(ShownAt(bars, forming, at)[a..end], now) == bars[a..end]
  {
    hide ClosedBy, DropUnclosed, Printed, Length;
    ClosedOnesFirst(bars, timeframe, at);
    var first := ShownAt(bars, forming, at)[a..end];
    assert first == bars[a..end];
    assert forall k :: 0 <= k < |first| ==> first[k] == bars[a + k];
    DropUnclosedUniform(first, now);
  }

  /** Of a response that ends with the forming bar, that bar is kept if it has closed meanwhile. */
  lemma LastKept(bars: seq<Candle>, timeframe: Timeframe, forming: Candle, a: nat, at: Time, now: Time)
    requires Printed(bars, timeframe) && at <= now && a <= ClosedBy(bars, at) < |bars| && Forms(bars, forming, at)
    ensures var closed := ClosedBy(bars, at);
            DropUnclosed(ShownAt(bars, forming, at)[a..closed + 1], now)
            == bars[a..closed] + if CloseTime(bars[closed]) <= now then [forming] else []
  {
    hide ClosedBy, DropUnclosed, Printed, Length;
    var closed, shown := ClosedBy(bars, at), ShownAt(bars, forming, at);
    assert shown[a..closed + 1] == shown[a..closed] + [forming];
    DropUnclosedConcat(shown[a..closed], [forming], now);
    WholeKept(bars, timeframe, forming, a, closed, at, now);
    DropUnclosedUniform([forming], now);
  }

  lemma DropNothing(now: Time)
    ensures DropUnclosed([], now) == []
  {
  }

  // ---- it stays ----------------------------------------------------------------------------------

  lemma {:induction false} LaterThanSkips(candles: seq<Candle>, time: Time)
    ensures forall c <- LaterThan(candles, time) :: c.time > time
  {
    if candles != [] {
      LaterThanSkips(candles[1..], time);
    }
  }

  lemma {:induction false} PutAllKeeps(rows: seq<Candle>, candles: seq<Candle>, kept: Candle)
    requires ByTime(rows) && kept in rows && forall c <- candles :: c.time != kept.time
    ensures ByTime(PutAll(rows, candles)) && kept in PutAll(rows, candles)
  {
    hide ByTime, Put;
    if candles != [] {
      var front, last := candles[..|candles| - 1], candles[|candles| - 1];
      PutAllKeeps(rows, front, kept);
      PutOrdered(PutAll(rows, front), last);
      PutMembers(PutAll(rows, front), last, kept);
    }
  }

  /** An incremental collection starts at the last stored bar and stores only what is later, so a
      partial bar, once stored, keeps its prices: whatever is fetched, no stored bar changes. */
  lemma PartialStays(rows: seq<Candle>, fetch: seq<Candle>, kept: Candle)
    requires ByTime(rows) && rows != [] && kept in rows
    ensures kept in PutAll(rows, LaterThan(fetch, rows[|rows| - 1].time))
  {
    LaterThanSkips(fetch, rows[|rows| - 1].time);
    var k :| 0 <= k < |rows| && rows[k] == kept;
    RowOrder(rows, k, |rows| - 1);
    PutAllKeeps(rows, LaterThan(fetch, rows[|rows| - 1].time), kept);
  }
}
