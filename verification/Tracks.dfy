/** The three recommendation tracks (src/tracks.py): entry conditions, the first-touch race
    between target and stop, and the log of non-overlapping trades. */
module Tracks {
  import opened Domain

  datatype TrackSpec = TrackSpec(
    key: string,
    target: real,
    stop: real,
    holdHours: nat,
    timeframe: Timeframe,
    simTimeframe: Timeframe,
    requireAboveCloud: bool,
    minSamples: nat,
    minHitRate: real)

  const DAY_TRACK := TrackSpec("day", 0.02, 0.02, 8, H4, M30, false, 10, 0.25)
  const MID_TRACK := TrackSpec("mid", 0.05, 0.04, 24, H4, M30, false, 10, 0.20)
  const LONG_TRACK := TrackSpec("long", 0.10, 0.05, 48, H4, M30, true, 10, 0.15)
  const TRACKS := [DAY_TRACK, MID_TRACK, LONG_TRACK]

  const RSI_MIN := 50.0

  datatype IchimokuPoint = IchimokuPoint(
    time: Time,
    close: real,
    tenkan: Option<real>,
    kijun: Option<real>,
    senkouA: Option<real>,
    senkouB: Option<real>)

  predicate AboveCloud(point: IchimokuPoint) {
    && point.senkouA.Some? && point.senkouB.Some?
    && point.close > point.senkouA.value && point.close > point.senkouB.value
  }

  /** Tenkan crosses kijun from below on bar i. */
  predicate GoldenCross(points: seq<IchimokuPoint>, i: int) {
    && 0 < i < |points|
    && points[i].tenkan.Some? && points[i].kijun.Some?
    && points[i - 1].tenkan.Some? && points[i - 1].kijun.Some?
    && points[i].tenkan.value > points[i].kijun.value
    && points[i - 1].tenkan.value <= points[i - 1].kijun.value
  }

  /** A cross is a turn: the bar before one is never itself a cross, and between two crosses the
      tenkan came back down to the kijun. */
  lemma CrossesAlternate(points: seq<IchimokuPoint>, i: int, j: int)
    requires GoldenCross(points, i) && GoldenCross(points, j) && i < j
    ensures i + 1 < j
    ensures exists k ::
              && i < k < j && points[k].tenkan.Some? && points[k].kijun.Some?
              && points[k].tenkan.value <= points[k].kijun.value
  {
    assert points[j - 1].tenkan.value <= points[j - 1].kijun.value;
  }

  predicate EntryOk(points: seq<IchimokuPoint>, i: int, spec: TrackSpec) {
    && GoldenCross(points, i)
    && (spec.requireAboveCloud ==> AboveCloud(points[i]))
  }

  /** Bitcoin's cloud state, each value stamped with the instant its bar closed, and the
      coin's own RSI by bar index. */
  datatype EntryContext = EntryContext(btcTimes: seq<Time>, btcAbove: seq<bool>, rsi: seq<Option<real>>) {
    ghost predicate Valid() {
      |btcTimes| == |btcAbove| && NonDescending(btcTimes)
    }
  }

  /** Latest value closed at or before `moment`; false before the series starts. */
  predicate AsOf(times: seq<Time>, values: seq<bool>, moment: Time)
    requires |times| == |values|
  {
    var count := CountUpTo(times, moment);
    count > 0 && values[count - 1]
  }

  /** Entry k is the last one stamped at or before the moment. */
  ghost predicate IsLatest(times: seq<Time>, moment: Time, k: int) {
    0 <= k < |times| && times[k] <= moment && forall j :: k < j < |times| ==> moment < times[j]
  }

  lemma LatestIs(times: seq<Time>, moment: Time, k: nat)
    requires NonDescending(times) && k < |times|
    ensures IsLatest(times, moment, k) <==> CountUpTo(times, moment) == k + 1
  {
    hide CountUpTo;
    CountUpToIs(times, moment, k + 1);
    assert forall j :: 0 <= j < k + 1 ==> times[j] <= times[k];
    assert times[k] <= moment ==> forall j :: 0 <= j < k + 1 ==> times[j] <= moment;
  }

  /** The look-up reads the last value stamped at or before the moment, if there is one. */
  lemma AsOfIsLatest(times: seq<Time>, values: seq<bool>, moment: Time)
    requires |times| == |values| && NonDescending(times)
    ensures AsOf(times, values, moment) <==> exists k :: IsLatest(times, moment, k) && values[k]
  {
    hide CountUpTo, IsLatest, NonDescending;
    var count := CountUpTo(times, moment);
    if AsOf(times, values, moment) {
      LatestIs(times, moment, count - 1);
      assert IsLatest(times, moment, count - 1) && values[count - 1];
    }
    if k: int :| IsLatest(times, moment, k) && 0 <= k < |values| && values[k] {
      LatestIs(times, moment, k);
    }
    forall k: int | IsLatest(times, moment, k)
      ensures 0 <= k < |values|
    {
      InRange(times, moment, k);
    }
  }

  lemma InRange(times: seq<Time>, moment: Time, k: int)
    requires IsLatest(times, moment, k)
    ensures 0 <= k < |times|
  {
  }

  predicate AuxOk(context: Option<EntryContext>, candles: seq<Candle>, i: nat)
    requires i < |candles|
    requires context.Some? ==> context.value.Valid()
  {
    context.Some? ==>
      && AsOf(context.value.btcTimes, context.value.btcAbove, CloseTime(candles[i]))
      && i < |context.value.rsi|
      && context.value.rsi[i].Some?
      && context.value.rsi[i].value >= RSI_MIN
  }

  /** Python's `round`: nearest integer to num/den, ties to even. */
  function RoundHalfEven(num: nat, den: nat): (r: nat)
    requires den > 0
  {
    var q, rest := num / den, num % den;
    if 2 * rest < den || (2 * rest == den && q % 2 == 0) then q else q + 1
  }

  lemma RoundsToNearest(num: nat, den: nat)
    requires den > 0
    ensures var r := RoundHalfEven(num, den);
            && 2 * (r * den) <= 2 * num + den && 2 * num <= 2 * (r * den) + den
            && (2 * (r * den) == 2 * num + den || 2 * num == 2 * (r * den) + den ==> r % 2 == 0)
  {
    assert num == num / den * den + num % den;
    assert (num / den + 1) * den == num / den * den + den;
  }

  /** Minutes per bar in the track module's own table, whose month is 730 hours. */
  function TrackMinutes(timeframe: Timeframe): nat
    requires timeframe != M1
  {
    if timeframe == MO1 then 730 * 60 else Length(timeframe) / MINUTE
  }

  /** Holding period in judging bars. The track table has no one-minute entry. */
  function BarsFor(spec: TrackSpec): (bars: nat)
    requires spec.simTimeframe != M1
    ensures bars >= 1
  {
    var bars := RoundHalfEven(spec.holdHours * 60, TrackMinutes(spec.simTimeframe));
    if bars < 1 then 1 else bars
  }

  /** The nearest whole number of bars to the hold, but at least one. */
  lemma HoldInBars(spec: TrackSpec)
    requires spec.simTimeframe != M1
    ensures var bars, hold := BarsFor(spec), spec.holdHours * 60;
            var minutes := match spec.simTimeframe
                           case M15 => 15 case M30 => 30 case H1 => 60 case H4 => 240 case D1 => 1_440
                           case W1 => 10_080 case _ => 43_800;
            && 2 * hold <= 2 * (bars * minutes) + minutes
            && (bars == 1 || 2 * (bars * minutes) <= 2 * hold + minutes)
  {
    RoundsToNearest(spec.holdHours * 60, TrackMinutes(spec.simTimeframe));
  }

  /** The judging bars with their closing times, ascending as the store returns them. */
  datatype SimSeries = SimSeries(candles: seq<Candle>, closeTimes: seq<Time>) {
    ghost predicate Valid() {
      closeTimes == CloseTimes(candles) && Ascending(closeTimes)
    }

    /** Last judging bar already closed at `moment`; -1 if there is none. */
    function IndexAt(moment: Time): (index: int)
      ensures -1 <= index < |closeTimes|
    {
      CountUpTo(closeTimes, moment) - 1
    }
  }

  function BuildSimSeries(candles: seq<Candle>): SimSeries {
    SimSeries(candles, CloseTimes(candles))
  }

  // ---- the race -------------------------------------------------------------------------

  predicate HitsStop(bar: Candle, stopPrice: real) { bar.low <= stopPrice }

  predicate HitsTarget(bar: Candle, targetPrice: real) { bar.high >= targetPrice }

  /** First bar of [from, to) that reaches either price, or `to`. */
  function FirstTouch(bars: seq<Candle>, stopPrice: real, targetPrice: real, from: nat, end: nat): (j: nat)
    requires from <= end <= |bars|
    ensures from <= j <= end
    ensures forall k :: from <= k < j ==> !HitsStop(bars[k], stopPrice) && !HitsTarget(bars[k], targetPrice)
    ensures j < end ==> HitsStop(bars[j], stopPrice) || HitsTarget(bars[j], targetPrice)
    decreases end - from
  {
    if from == end || HitsStop(bars[from], stopPrice) || HitsTarget(bars[from], targetPrice) then from
    else FirstTouch(bars, stopPrice, targetPrice, from + 1, end)
  }

  lemma FirstTouchIs(bars: seq<Candle>, stopPrice: real, targetPrice: real, from: nat, end: nat, j: nat)
    requires from <= j <= end <= |bars|
    requires forall k :: from <= k < j ==> !HitsStop(bars[k], stopPrice) && !HitsTarget(bars[k], targetPrice)
    requires j < end ==> HitsStop(bars[j], stopPrice) || HitsTarget(bars[j], targetPrice)
    ensures FirstTouch(bars, stopPrice, targetPrice, from, end) == j
  {
  }

  datatype Verdict = Win | Loss | Timedout

  datatype Simulated = Simulated(verdict: Verdict, ret: real, exitAt: Time)

  function TargetPrice(entry: real, spec: TrackSpec): real { entry * (1.0 + spec.target) }

  function StopPrice(entry: real, spec: TrackSpec): real { entry * (1.0 - spec.stop) }

  /** A judged position: the bars start+1 .. start+bars are all present. */
  predicate Judgeable(entry: Candle, spec: TrackSpec, sim: SimSeries)
    requires spec.simTimeframe != M1
  {
    var start := sim.IndexAt(CloseTime(entry));
    entry.close > 0.0 && 0 <= start && start + BarsFor(spec) < |sim.candles|
  }

  /** Index of the bar on which the position ends. */
  function ExitBar(entry: Candle, spec: TrackSpec, sim: SimSeries): (j: nat)
    requires spec.simTimeframe != M1 && Judgeable(entry, spec, sim)
    ensures sim.IndexAt(CloseTime(entry)) < j <= sim.IndexAt(CloseTime(entry)) + BarsFor(spec)
  {
    var start := sim.IndexAt(CloseTime(entry));
    var last := start + BarsFor(spec);
    var j := FirstTouch(sim.candles, StopPrice(entry.close, spec), TargetPrice(entry.close, spec), start + 1, last + 1);
    if j <= last then j else last
  }

  /** What the exit bar decides: the stop wins a tie, and a bar that reaches neither
      price settles at its close. */
  function VerdictOn(bar: Candle, entry: real, spec: TrackSpec): Verdict {
    if HitsStop(bar, StopPrice(entry, spec)) then Loss
    else if HitsTarget(bar, TargetPrice(entry, spec)) then Win
    else Timedout
  }

  function ReturnOn(bar: Candle, entry: real, spec: TrackSpec): real
    requires entry > 0.0
  {
    match VerdictOn(bar, entry, spec)
    case Loss => -spec.stop
    case Win => spec.target
    case Timedout => bar.close / entry - 1.0
  }

  function SimulateSpec(entry: Candle, spec: TrackSpec, sim: SimSeries): Option<Simulated>
    requires spec.simTimeframe != M1 && sim.Valid()
  {
    if !Judgeable(entry, spec, sim) then None else
    var bar := sim.candles[ExitBar(entry, spec, sim)];
    Some(Simulated(VerdictOn(bar, entry.close, spec), ReturnOn(bar, entry.close, spec), CloseTime(bar)))
  }

  /** The position ends on bar j: none before it reaches a price, and it does or is the last. */
  lemma EndsAt(entry: Candle, spec: TrackSpec, sim: SimSeries, j: nat)
    requires spec.simTimeframe != M1 && sim.Valid() && Judgeable(entry, spec, sim)
    requires var start, last := sim.IndexAt(CloseTime(entry)), sim.IndexAt(CloseTime(entry)) + BarsFor(spec);
             var stop, target := StopPrice(entry.close, spec), TargetPrice(entry.close, spec);
             && start < j <= last
             && (forall k :: start < k < j ==> !HitsStop(sim.candles[k], stop) && !HitsTarget(sim.candles[k], target))
             && (j < last ==> HitsStop(sim.candles[j], stop) || HitsTarget(sim.candles[j], target))
    ensures var bar := sim.candles[j];
            SimulateSpec(entry, spec, sim)
            == Some(Simulated(VerdictOn(bar, entry.close, spec), ReturnOn(bar, entry.close, spec), sim.closeTimes[j]))
  {
    hide StopPrice, TargetPrice, CountUpTo, Length, BarsFor, VerdictOn, ReturnOn;
    var start, last := sim.IndexAt(CloseTime(entry)), sim.IndexAt(CloseTime(entry)) + BarsFor(spec);
    var stop, target := StopPrice(entry.close, spec), TargetPrice(entry.close, spec);
    var touched := HitsStop(sim.candles[j], stop) || HitsTarget(sim.candles[j], target);
    FirstTouchIs(sim.candles, stop, target, start + 1, last + 1, if touched then j else last + 1);
  }

  /** `simulate`: race the judging bars one by one. */
  method Simulate(entryCandles: seq<Candle>, i: nat, spec: TrackSpec, sim: SimSeries) returns (r: Option<Simulated>)
    requires i < |entryCandles| && spec.simTimeframe != M1 && sim.Valid()
    ensures r == SimulateSpec(entryCandles[i], spec, sim)
  {
    hide StopPrice, TargetPrice, CountUpTo, Length, BarsFor, ExitBar;
    var entry := entryCandles[i].close;
    if entry <= 0.0 {
      return None;
    }
    var start := sim.IndexAt(CloseTime(entryCandles[i]));
    var bars := BarsFor(spec);
    if start < 0 || start + bars >= |sim.candles| {
      return None;
    }
    hide SimulateSpec;
    var target, stop := TargetPrice(entry, spec), StopPrice(entry, spec);
    for j := start + 1 to start + 1 + bars
      invariant forall k :: start + 1 <= k < j ==>
                  !HitsStop(sim.candles[k], stop) && !HitsTarget(sim.candles[k], target)
    {
      if sim.candles[j].low <= stop {
        EndsAt(entryCandles[i], spec, sim, j);
        return Some(Simulated(Loss, -spec.stop, sim.closeTimes[j]));
      }
      if sim.candles[j].high >= target {
        EndsAt(entryCandles[i], spec, sim, j);
        return Some(Simulated(Win, spec.target, sim.closeTimes[j]));
      }
    }
    var last := start + bars;
    EndsAt(entryCandles[i], spec, sim, last);
    return Some(Simulated(Timedout, sim.candles[last].close / entry - 1.0, sim.closeTimes[last]));
  }

  // ---- the trade log ---------------------------------------------------------------------

  /** Everything `compute_track_stats` reads for one coin and one track. */
  datatype History = History(
    candles: seq<Candle>,
    points: seq<IchimokuPoint>,
    spec: TrackSpec,
    sim: SimSeries,
    context: Option<EntryContext>)
  {
    ghost predicate Valid() {
      && |points| <= |candles|
      && Ascending(CloseTimes(candles))
      && spec.simTimeframe != M1
      && sim.Valid()
      && (context.Some? ==> context.value.Valid())
    }

    /** The instant the entry bar closes. */
    function Moment(i: nat): Time
      requires i < |candles|
    {
      CloseTime(candles[i])
    }

    function Start(i: nat): int
      requires i < |candles|
    {
      sim.IndexAt(Moment(i))
    }

    /** The entry conditions hold on bar i. */
    predicate Signals(i: nat)
      requires Valid() && i < |points|
    {
      EntryOk(points, i, spec) && AuxOk(context, candles, i)
    }

    /** Bar i would be a trade if no position were open. */
    predicate Eligible(i: nat)
      requires Valid() && i < |points|
    {
      Signals(i) && Judgeable(candles[i], spec, sim)
    }

    function TradeAt(i: nat): (t: Trade)
      requires Valid() && i < |points| && Eligible(i)
    {
      var exit := ExitBar(candles[i], spec, sim);
      Trade(i, Moment(i), SimulateSpec(candles[i], spec, sim).value,
            WorstDip(sim.candles, candles[i].close, Start(i) + 1, exit + 1))
    }
  }

  /** One counted trade: entry bar, entry instant, outcome and deepest dip while held. */
  datatype Trade = Trade(index: nat, entryAt: Time, outcome: Simulated, drawdown: real)

  function Dip(bar: Candle, entry: real): real
    requires entry > 0.0
  {
    bar.low / entry - 1.0
  }

  /** Least dip over a non-empty range of bars: a lower bound that one bar attains. */
  function WorstDip(bars: seq<Candle>, entry: real, from: nat, end: nat): (worst: real)
    requires entry > 0.0 && from < end <= |bars|
    decreases end - from
  {
    var first := Dip(bars[from], entry);
    if from + 1 == end then first else Min(first, WorstDip(bars, entry, from + 1, end))
  }

  lemma {:induction false} WorstDipIsLeast(bars: seq<Candle>, entry: real, from: nat, end: nat)
    requires entry > 0.0 && from < end <= |bars|
    ensures forall k :: from <= k < end ==> WorstDip(bars, entry, from, end) <= Dip(bars[k], entry)
    ensures exists k :: from <= k < end && WorstDip(bars, entry, from, end) == Dip(bars[k], entry)
    decreases end - from
  {
    var worst := WorstDip(bars, entry, from, end);
    if from + 1 == end {
      assert worst == Dip(bars[from], entry);
    } else {
      WorstDipIsLeast(bars, entry, from + 1, end);
      var k :| from + 1 <= k < end && WorstDip(bars, entry, from + 1, end) == Dip(bars[k], entry);
      assert worst == Dip(bars[from], entry) || worst == Dip(bars[k], entry);
    }
  }

  /** A position opened at `moment` does not overlap the last one in the log. */
  predicate Flat(log: seq<Trade>, moment: Time) {
    |log| > 0 ==> log[|log| - 1].outcome.exitAt <= moment
  }

  /** The counted trades among the first n bars. */
  function LogUpTo(h: History, n: nat): (log: seq<Trade>)
    requires h.Valid() && n <= |h.points|
  {
    if n == 0 then [] else
    var log := LogUpTo(h, n - 1);
    if h.Eligible(n - 1) && Flat(log, h.Moment(n - 1)) then log + [h.TradeAt(n - 1)] else log
  }

  function TradeLog(h: History): seq<Trade>
    requires h.Valid()
  {
    LogUpTo(h, |h.points|)
  }

  // ---- statistics ------------------------------------------------------------------------

  function CountVerdicts(log: seq<Trade>, verdict: Verdict): (n: nat)
    ensures n <= |log|
  {
    if log == [] then 0 else
    CountVerdicts(log[..|log| - 1], verdict) + (if log[|log| - 1].outcome.verdict == verdict then 1 else 0)
  }

  function SumReturns(log: seq<Trade>): real {
    if log == [] then 0.0 else SumReturns(log[..|log| - 1]) + log[|log| - 1].outcome.ret
  }

  function WorstDrawdown(log: seq<Trade>): (worst: real)
    requires log != []
    ensures forall k :: 0 <= k < |log| ==> worst <= log[k].drawdown
    ensures exists k :: 0 <= k < |log| && worst == log[k].drawdown
  {
    var last := log[|log| - 1].drawdown;
    if |log| == 1 then last else Min(WorstDrawdown(log[..|log| - 1]), last)
  }

  datatype TrackStats = TrackStats(
    n: nat,
    hitCount: nat,
    lossCount: nat,
    timeoutCount: nat,
    hitRate: Option<real>,
    expectedReturn: Option<real>,
    maxDrawdown: Option<real>)

  /** A signalling bar is a trade exactly when it can be judged. Its exit bar finds itself by
      its own closing time, so the drawdown range is never empty: it is exactly the bars
      after the entry up to and including the exit bar. */
  lemma JudgedBar(h: History, i: nat)
    requires h.Valid() && i < |h.points| && h.Signals(i)
    ensures h.Eligible(i) <==> SimulateSpec(h.candles[i], h.spec, h.sim).Some?
    ensures h.Eligible(i) ==>
              var trade, end := h.TradeAt(i), h.sim.IndexAt(h.TradeAt(i).outcome.exitAt);
              && end == ExitBar(h.candles[i], h.spec, h.sim)
              && h.candles[i].close > 0.0
              && 0 <= h.Start(i) < end
              && trade.outcome == SimulateSpec(h.candles[i], h.spec, h.sim).value
              && trade.drawdown == WorstDip(h.sim.candles, h.candles[i].close, h.Start(i) + 1, end + 1)
  {
    if h.Eligible(i) {
      CountUpToOwn(h.sim.closeTimes, ExitBar(h.candles[i], h.spec, h.sim));
    }
  }

  /** The running totals of the loop, as a record. */
  datatype Tally = Tally(
    wins: nat,
    losses: nat,
    timeouts: nat,
    count: nat,
    total: real,
    worst: Option<real>,
    lastExit: Option<Time>)
  {
    function Add(outcome: Simulated, dip: real): Tally {
      Tally(wins + (if outcome.verdict == Win then 1 else 0),
            losses + (if outcome.verdict == Loss then 1 else 0),
            timeouts + (if outcome.verdict == Timedout then 1 else 0),
            count + 1,
            total + outcome.ret,
            Some(if worst.None? then dip else Min(worst.value, dip)),
            Some(outcome.exitAt))
    }

    function Stats(): TrackStats {
      TrackStats(count, wins, losses, timeouts,
                 if count > 0 then Some(wins as real / count as real) else None,
                 if count > 0 then Some(total / count as real) else None,
                 worst)
    }
  }

  ghost function TallyOf(log: seq<Trade>): Tally {
    Tally(CountVerdicts(log, Win), CountVerdicts(log, Loss), CountVerdicts(log, Timedout), |log|, SumReturns(log),
          if log == [] then None else Some(WorstDrawdown(log)),
          if log == [] then None else Some(log[|log| - 1].outcome.exitAt))
  }

  lemma TallyAppend(log: seq<Trade>, trade: Trade)
    ensures TallyOf(log + [trade]) == TallyOf(log).Add(trade.outcome, trade.drawdown)
  {
    assert (log + [trade])[..|log|] == log;
  }

  /** Bar i counts: it signals, no position is open, and it can be judged. */
  ghost predicate Counts(h: History, i: nat)
    requires h.Valid() && i < |h.points|
  {
    h.Eligible(i) && Flat(LogUpTo(h, i), h.Moment(i))
  }

  /** One more bar of the log. */
  lemma LogStep(h: History, i: nat)
    requires h.Valid() && i < |h.points|
    ensures !Counts(h, i) ==> TallyOf(LogUpTo(h, i + 1)) == TallyOf(LogUpTo(h, i))
    ensures Counts(h, i) ==>
              TallyOf(LogUpTo(h, i + 1)) == TallyOf(LogUpTo(h, i)).Add(h.TradeAt(i).outcome, h.TradeAt(i).drawdown)
  {
    if Counts(h, i) {
      TallyAppend(LogUpTo(h, i), h.TradeAt(i));
    }
  }

  /** What one bar does to the totals, in the terms the loop computes them. */
  lemma BarEffect(h: History, i: nat)
    requires h.Valid() && i < |h.points|
    ensures var before, after := TallyOf(LogUpTo(h, i)), TallyOf(LogUpTo(h, i + 1));
            var r := SimulateSpec(h.candles[i], h.spec, h.sim);
            if h.Signals(i) && !(before.lastExit.Some? && h.Moment(i) < before.lastExit.value) && r.Some? then
              && h.candles[i].close > 0.0
              && 0 <= h.Start(i) < h.sim.IndexAt(r.value.exitAt)
              && after == before.Add(r.value, WorstDip(h.sim.candles, h.candles[i].close, h.Start(i) + 1,
                                                       h.sim.IndexAt(r.value.exitAt) + 1))
            else after == before
  {
    LogStep(h, i);
    if h.Signals(i) {
      JudgedBar(h, i);
    }
  }

  /** The loop body of `compute_track_stats` for entry bar i. */
  method ConsiderBar(h: History, i: nat, tally: Tally) returns (next: Tally)
    requires h.Valid() && i < |h.points|
    requires tally == TallyOf(LogUpTo(h, i))
    ensures next == TallyOf(LogUpTo(h, i + 1))
  {
    hide SimulateSpec, WorstDip, CountUpTo, Length, Judgeable, Flat, EntryOk, AuxOk, LogUpTo, TallyOf, Tally.Add;
    BarEffect(h, i);
    if !EntryOk(h.points, i, h.spec) { return tally; }
    var moment := CloseTime(h.candles[i]);
    if tally.lastExit.Some? && moment < tally.lastExit.value { return tally; }
    if !AuxOk(h.context, h.candles, i) { return tally; }
    var simulated := Simulate(h.candles, i, h.spec, h.sim);
    if simulated.None? { return tally; }
    var entry := h.candles[i].close;
    var start, end := h.sim.IndexAt(moment), h.sim.IndexAt(simulated.value.exitAt);
    var dip := WorstDip(h.sim.candles, entry, start + 1, end + 1);
    return tally.Add(simulated.value, dip);
  }

  /** `compute_track_stats`: one pass over the entry bars. */
  method ComputeTrackStats(h: History) returns (stats: TrackStats)
    requires h.Valid()
    ensures stats == TallyOf(TradeLog(h)).Stats()
  {
    var tally := Tally(0, 0, 0, 0, 0.0, None, None);
    for i := 0 to |h.points|
      invariant tally == TallyOf(LogUpTo(h, i))
    {
      tally := ConsiderBar(h, i, tally);
    }
    stats := tally.Stats();
  }

  /** The most recent bar, if it signals. */
  function LatestEntry(h: History): (r: Option<nat>)
    requires h.Valid()
    ensures r.Some? <==> |h.points| > 0 && h.Signals(|h.points| - 1)
    ensures r.Some? ==> r.value == |h.points| - 1
  {
    if h.points == [] then None else
    var i := |h.points| - 1;
    if !EntryOk(h.points, i, h.spec) || !AuxOk(h.context, h.candles, i) then None else Some(i)
  }
}
