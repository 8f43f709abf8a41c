/** How far the price monitor sees (src/monitor.py, `check_price_events`): three pages of minutes from
    the entry bar on, while the hold is counted from the announcement. */
module MonitorLimits {
  import opened Domain
  import opened Exchange
  import opened Tracks
  import opened PriceEvents
  import opened Ledger
  import opened Monitor

  const REACH: nat := 999 * MONITOR_PAGES + 1

  /** Every closed minute since the entry. */
  function ClosedSince(bars: seq<Candle>, entry: Time, now: Time): seq<Candle> {
    var a, closed := OpenedBefore(bars, QueryTime(entry)), ClosedBy(bars, now);
    if a <= closed then bars[a..closed] else []
  }

  /** A fetch is a beginning of the closed minutes, never longer than the reach. */
  lemma SeesBeginning(bars: seq<Candle>, entry: Time, seen: seq<Candle>, before: Time, now: Time)
    requires Sees(bars, entry, seen, before, now)
    ensures seen <= ClosedSince(bars, entry, now) && |seen| <= REACH
  {
    hide OpenedBefore, ClosedBy, QueryTime;
  }

  lemma BeginningMisses(rec: Monitored, seen: seq<Candle>, all: seq<Candle>, touched: bool)
    requires seen <= all && |seen| <= FirstDecisive(rec, all, 0) < |all|
    ensures Ended(EventsFrom(rec, all, 0, touched)) && !Ended(EventsFrom(rec, seen, 0, touched))
  {
    hide EventsFrom, Ended;
    ScanShape(rec, all, 0, touched);
    ScanShape(rec, seen, 0, touched);
    assert forall j :: 0 <= j < |seen| ==> seen[j] == all[j];
  }

  /** A position whose first decisive minute lies beyond the reach is never closed by the monitor: no
      check, at whatever time, raises its closing event, although the closed minutes show it. */
  lemma BeyondReachIsMissed(bars: seq<Candle>, rec: Monitored, seen: seq<Candle>, before: Time, now: Time)
    requires Sees(bars, rec.entryTime, seen, before, now)
    requires var all := ClosedSince(bars, rec.entryTime, now);
             REACH <= FirstDecisive(rec, all, 0) < |all|
    ensures Ended(EventsOf(rec, ClosedSince(bars, rec.entryTime, now)))
    ensures !Ended(EventsOf(rec, seen))
  {
    hide Sees, ClosedSince, EventsFrom, Ended;
    SeesBeginning(bars, rec.entryTime, seen, before, now);
    BeginningMisses(rec, seen, ClosedSince(bars, rec.entryTime, now), rec.entryTouchedAt.Some?);
  }

  // ---- it happens inside a hold ------------------------------------------------------------------

  const STOPPED: nat := 2999

  /** Flat minutes at 100, and one that falls to 90. */
  function Minutes(n: nat): (bars: seq<Candle>)
    ensures |bars| == n
  {
    seq(n, i => Candle("BTCUSDT", M1, i * 60_000_000, 100.0, 101.0, if i == STOPPED then 90.0 else 100.0, 100.0, 1.0))
  }

  /** A long-track position entered at 100 and announced three hours after its entry bar closed. */
  const LATE := Monitored(180 * MINUTE, "BTCUSDT", 100.0, 0, None, LONG_TRACK.key)

  lemma MinutesTimes(n: nat)
    ensures forall k :: 0 <= k < n ==>
              Minutes(n)[k].time == k * 60_000_000 && CloseTime(Minutes(n)[k]) == (k + 1) * 60_000_000
    ensures forall k :: 0 <= k < n ==> Minutes(n)[k].timeframe == M1
  {
  }

  lemma MinutesArePrinted(n: nat)
    ensures Printed(Minutes(n), M1) && GapFree(Minutes(n), M1, 0)
    ensures forall k :: 0 <= k < n ==>
              Minutes(n)[k].time == k * 60_000_000 && CloseTime(Minutes(n)[k]) == (k + 1) * 60_000_000
  {
    hide Minutes, CloseTime, Gap;
    MinutesTimes(n);
    var bars := Minutes(n);
    forall k | 0 <= k < n
      ensures bars[k].time % 1000 == 0
    {
      WholeMinute(k);
    }
    forall j, k | 0 <= j < k < n
      ensures bars[j].time + Gap(M1) <= bars[k].time
    {
      assert Gap(M1) == 60_000_000 && bars[j].time == j * 60_000_000;
    }
  }

  lemma WholeMinute(k: nat)
    ensures (k * 60_000_000) % 1000 == 0
  {
    assert k * 60_000_000 == (k * 60_000) * 1000;
  }

  lemma MinutesClosedBy(n: nat, m: nat)
    requires m < n
    ensures ClosedBy(Minutes(n), m * 60_000_000) == m && OpenedBefore(Minutes(n), 0) == 0
  {
    hide ClosedBy, OpenedBefore, Minutes;
    var bars := Minutes(n);
    MinutesArePrinted(n);
    ClosedBySplits(bars, m * 60_000_000);
    OpenedBeforeSplits(bars, 0);
    var closed, earlier := ClosedBy(bars, m * 60_000_000), OpenedBefore(bars, 0);
    assert closed < n ==> CloseTime(bars[closed]) == (closed + 1) * 60_000_000;
    assert closed > 0 ==> CloseTime(bars[closed - 1]) == closed * 60_000_000;
    assert bars[0].time == 0;
  }

  /** The stop at 95 is met in minute 2999, still inside the 48-hour hold, and closed by 3005. The
      fetch ends at minute 2998, so the position stays open to the monitor. */
  lemma MissedStopReached() returns (bars: seq<Candle>, seen: seq<Candle>, now: Time)
    ensures Printed(bars, M1) && GapFree(bars, M1, 0) && !Expired(LATE, now)
    ensures Sees(bars, LATE.entryTime, seen, now, now) && |seen| == REACH
    ensures var all := ClosedSince(bars, LATE.entryTime, now);
            Ended(EventsOf(LATE, all)) && EventsOf(LATE, all)[|EventsOf(LATE, all)| - 1].kind == StopHit
    ensures !Ended(EventsOf(LATE, seen))
  {
    hide ClosedBy, OpenedBefore, EventsFrom, Printed, GapFree;
    bars, now := Minutes(3010), 3005 * 60_000_000;
    MinutesArePrinted(3010);
    MinutesClosedBy(3010, 3005);
    seen := bars[..REACH];
    var all := ClosedSince(bars, 0, now);
    assert all == bars[0..3005];
    LateIsStopped(all);
    SliceSeen(bars, now, seen);
    BeyondReachIsMissed(bars, LATE, seen, now, now);
    ScanShape(LATE, all, 0, false);
  }

  lemma LateIsStopped(all: seq<Candle>)
    requires all == Minutes(3010)[0..3005]
    ensures FirstDecisive(LATE, all, 0) == STOPPED && HitsStop(all[STOPPED], LATE.Stop())
  {
    hide FirstDecisive;
    assert LATE.Stop() == 95.0 && LATE.Target() == 110.0;
    assert forall k :: 0 <= k < 3005 ==> all[k] == Minutes(3010)[k];
    assert LATE.Decisive(all[STOPPED]);
  }

  lemma SliceSeen(bars: seq<Candle>, now: Time, seen: seq<Candle>)
    requires |bars| == 3010 && seen == bars[..REACH]
    requires OpenedBefore(bars, 0) == 0 && ClosedBy(bars, now) == 3005
    ensures Sees(bars, 0, seen, now, now)
  {
    hide ClosedBy, OpenedBefore;
    assert QueryTime(0) == 0;
    assert bars[0..0 + |seen|] == seen;
  }
}
