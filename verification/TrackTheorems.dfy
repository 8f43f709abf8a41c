/** What the trade log of src/tracks.py guarantees over whole histories. */
module TrackTheorems {
  import opened Domain
  import opened Tracks

  // ---- shape of the log ------------------------------------------------------------------

  /** Trade t is what bar t.index gives, and the bars come in order without overlap. */
  ghost predicate WellShaped(h: History, log: seq<Trade>, n: nat)
    requires h.Valid() && n <= |h.points|
  {
    && (forall k :: 0 <= k < |log| ==>
          log[k].index < n && h.Eligible(log[k].index) && log[k] == h.TradeAt(log[k].index))
    && (forall j, k :: 0 <= j < k < |log| ==> log[j].index < log[k].index && log[j].outcome.exitAt <= log[k].entryAt)
  }

  /** Some counted position is strictly open at bar i. */
  ghost predicate HeldAt(log: seq<Trade>, moment: Time) {
    exists k :: 0 <= k < |log| && log[k].entryAt < moment < log[k].outcome.exitAt
  }

  lemma ExitAfterEntry(h: History, i: nat)
    requires h.Valid() && i < |h.points| && h.Eligible(i)
    ensures h.TradeAt(i).entryAt < h.TradeAt(i).outcome.exitAt
  {
    var times := h.sim.closeTimes;
    CountUpToIs(times, h.Moment(i), h.Start(i) + 1);
    assert h.Moment(i) < times[ExitBar(h.candles[i], h.spec, h.sim)];
  }

  /** Every eligible bar among the first n is counted or lies strictly inside a counted
      holding interval. */
  ghost predicate Covers(h: History, log: seq<Trade>, n: nat)
    requires h.Valid() && n <= |h.points|
  {
    forall i :: 0 <= i < n && h.Eligible(i) ==> h.TradeAt(i) in log || HeldAt(log, h.Moment(i))
  }

  lemma CoversMore(h: History, log: seq<Trade>, more: seq<Trade>, n: nat)
    requires h.Valid() && n <= |h.points| && Covers(h, log, n) && log <= more
    ensures Covers(h, more, n)
  {
    forall i | 0 <= i < n && h.Eligible(i)
      ensures h.TradeAt(i) in more || HeldAt(more, h.Moment(i))
    {
      if h.TradeAt(i) !in log {
        var k :| 0 <= k < |log| && log[k].entryAt < h.Moment(i) < log[k].outcome.exitAt;
        assert more[k] == log[k];
      }
    }
  }

  /** Exits ascend along a well-shaped log, so the last exit is the latest. */
  lemma LastExitIsLatest(h: History, log: seq<Trade>, n: nat)
    requires h.Valid() && n <= |h.points| && WellShaped(h, log, n)
    ensures forall k :: 0 <= k < |log| ==> log[k].outcome.exitAt <= log[|log| - 1].outcome.exitAt
  {
    forall k | 0 <= k < |log| - 1
      ensures log[k].outcome.exitAt <= log[|log| - 1].outcome.exitAt
    {
      ExitAfterEntry(h, log[|log| - 1].index);
    }
  }

  lemma CountedKeepsShape(h: History, log: seq<Trade>, i: nat)
    requires h.Valid() && i < |h.points| && WellShaped(h, log, i) && Covers(h, log, i)
    requires h.Eligible(i) && Flat(log, h.Moment(i))
    ensures WellShaped(h, log + [h.TradeAt(i)], i + 1) && Covers(h, log + [h.TradeAt(i)], i + 1)
  {
    hide History.TradeAt, ExitBar, Judgeable;
    LastExitIsLatest(h, log, i);
    TradeStamps(h, i);
    CoversMore(h, log, log + [h.TradeAt(i)], i);
    assert (log + [h.TradeAt(i)])[|log|] == h.TradeAt(i);
  }

  lemma TradeStamps(h: History, i: nat)
    requires h.Valid() && i < |h.points| && h.Eligible(i)
    ensures h.TradeAt(i).index == i && h.TradeAt(i).entryAt == h.Moment(i)
  {
  }

  lemma SkippedKeepsShape(h: History, log: seq<Trade>, i: nat)
    requires h.Valid() && i < |h.points| && WellShaped(h, log, i) && Covers(h, log, i)
    requires h.Eligible(i) ==> !Flat(log, h.Moment(i))
    ensures WellShaped(h, log, i + 1) && Covers(h, log, i + 1)
  {
    hide History.TradeAt, ExitBar, Judgeable;
    if h.Eligible(i) {
      var last := log[|log| - 1];
      TradeStamps(h, last.index);
      assert CloseTimes(h.candles)[last.index] < CloseTimes(h.candles)[i];
      assert HeldAt(log, h.Moment(i));
    }
  }

  /** Counted trades never overlap, and every eligible bar that was passed over lies
      strictly inside a counted holding interval. */
  lemma {:induction false} LogShape(h: History, n: nat)
    requires h.Valid() && n <= |h.points|
    ensures WellShaped(h, LogUpTo(h, n), n) && Covers(h, LogUpTo(h, n), n)
  {
    hide History.TradeAt, WellShaped, Covers;
    if n == 0 {
      NothingLogged(h);
    } else {
      LogShape(h, n - 1);
      if h.Eligible(n - 1) && Flat(LogUpTo(h, n - 1), h.Moment(n - 1)) {
        CountedKeepsShape(h, LogUpTo(h, n - 1), n - 1);
      } else {
        SkippedKeepsShape(h, LogUpTo(h, n - 1), n - 1);
      }
    }
  }

  lemma NothingLogged(h: History)
    requires h.Valid()
    ensures WellShaped(h, [], 0) && Covers(h, [], 0)
  {
  }

  // ---- prefix stability --------------------------------------------------------------------

  /** `later` is `h` after more data arrived. Judging bars may arrive at any time; Bitcoin's
      values must be stamped after every moment already judged. */
  ghost predicate Extends(h: History, later: History)
    requires h.Valid() && later.Valid()
  {
    && h.spec == later.spec
    && h.candles <= later.candles
    && h.points <= later.points
    && h.sim.candles <= later.sim.candles
    && (h.context.Some? <==> later.context.Some?)
    && (h.context.Some? ==>
          && |h.points| <= |h.context.value.rsi|
          && h.context.value.rsi <= later.context.value.rsi
          && h.context.value.btcTimes <= later.context.value.btcTimes
          && h.context.value.btcAbove <= later.context.value.btcAbove
          && forall i, k :: 0 <= i < |h.points| && |h.context.value.btcTimes| <= k < |later.context.value.btcTimes| ==>
               h.Moment(i) < later.context.value.btcTimes[k])
  }

  /** Signals on existing bars read nothing that arrived later. */
  lemma SignalsStable(h: History, later: History, i: nat)
    requires h.Valid() && later.Valid() && Extends(h, later) && i < |h.points|
    ensures h.Moment(i) == later.Moment(i)
    ensures h.Signals(i) == later.Signals(i)
  {
    if h.context.Some? {
      var c, d := h.context.value, later.context.value;
      CountUpToStable(c.btcTimes, d.btcTimes, h.Moment(i));
    }
  }

  /** Verdicts that could be reached are final. */
  lemma JudgementStable(h: History, later: History, i: nat)
    requires h.Valid() && later.Valid() && Extends(h, later) && i < |h.points|
    requires Judgeable(h.candles[i], h.spec, h.sim)
    ensures Judgeable(later.candles[i], later.spec, later.sim)
    ensures h.Start(i) == later.Start(i)
    ensures ExitBar(h.candles[i], h.spec, h.sim) == ExitBar(later.candles[i], later.spec, later.sim)
  {
    hide StopPrice, TargetPrice, FirstTouch, CountUpTo, Length, BarsFor;
    var times, longer := h.sim.closeTimes, later.sim.closeTimes;
    var count := h.Start(i) + 1;
    CountUpToIs(times, h.Moment(i), count);
    assert h.Moment(i) < times[count] == longer[count];
    CountUpToIs(longer, h.Moment(i), count);
    var entry, last := h.candles[i].close, h.Start(i) + BarsFor(h.spec);
    var stop, target := StopPrice(entry, h.spec), TargetPrice(entry, h.spec);
    FirstTouchIs(later.sim.candles, stop, target, count, last + 1,
                 FirstTouch(h.sim.candles, stop, target, count, last + 1));
  }

  lemma {:induction false} WorstDipStable(bars: seq<Candle>, longer: seq<Candle>, entry: real, from: nat, end: nat)
    requires entry > 0.0 && from < end <= |bars| && bars <= longer
    ensures WorstDip(bars, entry, from, end) == WorstDip(longer, entry, from, end)
    decreases end - from
  {
    if from + 1 < end {
      WorstDipStable(bars, longer, entry, from + 1, end);
    }
  }

  lemma TradeStable(h: History, later: History, i: nat)
    requires h.Valid() && later.Valid() && Extends(h, later) && i < |h.points| && h.Eligible(i)
    ensures later.Eligible(i) && later.TradeAt(i) == h.TradeAt(i)
  {
    hide WorstDip, StopPrice, TargetPrice, FirstTouch, CountUpTo, Length, BarsFor;
    SignalsStable(h, later, i);
    JudgementStable(h, later, i);
    var exit := ExitBar(h.candles[i], h.spec, h.sim);
    WorstDipStable(h.sim.candles, later.sim.candles, h.candles[i].close, h.Start(i) + 1, exit + 1);
    assert h.sim.candles[exit] == later.sim.candles[exit];
  }

  /** The hold window of bar i reaches past the judging bars held so far. */
  ghost predicate Unfinished(h: History, i: nat)
    requires h.Valid() && i < |h.points|
  {
    h.Start(i) + BarsFor(h.spec) >= |h.sim.candles|
  }

  lemma StartsAscend(h: History, i: nat, j: nat)
    requires h.Valid() && i <= j < |h.points|
    ensures h.Start(i) <= h.Start(j)
  {
    var times := h.sim.closeTimes;
    assert CloseTimes(h.candles)[i] <= CloseTimes(h.candles)[j];
    CountUpToIs(times, h.Moment(i), h.Start(i) + 1);
    CountUpToIs(times, h.Moment(j), h.Start(j) + 1);
    assert 0 <= h.Start(i) ==> times[h.Start(i)] <= h.Moment(i);
  }

  /** No look-ahead and no unfinished trade: the old log is a prefix of the new one, and every
      additional trade sits on a new bar or on one whose hold window was still open. */
  lemma {:induction false} PrefixStability(h: History, later: History, n: nat)
    requires h.Valid() && later.Valid() && Extends(h, later) && n <= |h.points|
    ensures LogUpTo(h, n) <= LogUpTo(later, n)
    ensures LogUpTo(h, n) != LogUpTo(later, n) ==> forall i :: n <= i < |h.points| ==> !h.Eligible(i)
    ensures forall k :: |LogUpTo(h, n)| <= k < |LogUpTo(later, n)| ==>
              LogUpTo(later, n)[k].index < n && Unfinished(h, LogUpTo(later, n)[k].index)
  {
    if n > 0 {
      var i := n - 1;
      PrefixStability(h, later, i);
      SignalsStable(h, later, i);
      if h.Eligible(i) {
        TradeStable(h, later, i);
      } else if later.Eligible(i) {
        StartAgreesOrOpen(h, later, i);
        forall j | i <= j < |h.points|
          ensures !h.Eligible(j)
        {
          StartsAscend(h, i, j);
        }
      }
    }
  }

  /** A bar that only the richer history can judge had an open window before. */
  lemma StartAgreesOrOpen(h: History, later: History, i: nat)
    requires h.Valid() && later.Valid() && Extends(h, later) && i < |h.points|
    requires !h.Eligible(i) && later.Eligible(i)
    ensures Unfinished(h, i)
  {
    SignalsStable(h, later, i);
    var times, longer := h.sim.closeTimes, later.sim.closeTimes;
    var count := h.Start(i) + 1;
    CountUpToIs(times, h.Moment(i), count);
    if count < |times| {
      assert h.Moment(i) < times[count] == longer[count];
      CountUpToIs(longer, h.Moment(i), count);
    }
  }

  /** The same for the finished statistics' log. */
  lemma TradeLogStability(h: History, later: History)
    requires h.Valid() && later.Valid() && Extends(h, later)
    ensures TradeLog(h) <= TradeLog(later)
    ensures forall k :: |TradeLog(h)| <= k < |TradeLog(later)| ==>
              var i := TradeLog(later)[k].index;
              i < |later.points| && (i < |h.points| ==> Unfinished(h, i))
  {
    var n := |h.points|;
    PrefixStability(h, later, n);
    LogGrows(later, n, |later.points|);
    LogShape(later, |later.points|);
  }

  lemma {:induction false} LogGrows(h: History, m: nat, n: nat)
    requires h.Valid() && m <= n <= |h.points|
    ensures LogUpTo(h, m) <= LogUpTo(h, n)
    ensures forall k :: |LogUpTo(h, m)| <= k < |LogUpTo(h, n)| ==> m <= LogUpTo(h, n)[k].index < n
  {
    if m < n {
      LogGrows(h, m, n - 1);
    }
  }

  // ---- return accounting -------------------------------------------------------------------

  /** Each bar's prices are ordered. */
  ghost predicate SaneBars(bars: seq<Candle>) {
    forall k :: 0 <= k < |bars| ==> bars[k].low <= bars[k].close <= bars[k].high
  }

  function SumTimeoutReturns(log: seq<Trade>): real {
    if log == [] then 0.0 else
    var last := log[|log| - 1].outcome;
    SumTimeoutReturns(log[..|log| - 1]) + (if last.verdict == Timedout then last.ret else 0.0)
  }

  lemma PriceRatio(price: real, entry: real, ratio: real)
    requires entry > 0.0
    ensures price <= entry * (1.0 + ratio) <==> price / entry - 1.0 <= ratio
    ensures price >= entry * (1.0 + ratio) <==> price / entry - 1.0 >= ratio
  {
    var q := price / entry;
    assert q * entry == price;
    Scale(q, 1.0 + ratio, entry);
  }

  lemma Scale(a: real, b: real, factor: real)
    requires factor > 0.0
    ensures a <= b <==> a * factor <= b * factor
    ensures a >= b <==> a * factor >= b * factor
  {
    if a < b {
      assert (b - a) * factor > 0.0;
    } else if a > b {
      assert (a - b) * factor > 0.0;
    }
  }

  /** What the exit bar pays: a timeout settles strictly between the stop and the target. */
  lemma ExitBarPays(bar: Candle, entry: real, spec: TrackSpec)
    requires entry > 0.0 && bar.low <= bar.close <= bar.high
    ensures var verdict, ret := VerdictOn(bar, entry, spec), ReturnOn(bar, entry, spec);
            && (verdict == Win ==> ret == spec.target)
            && (verdict == Loss ==> ret == -spec.stop)
            && (verdict == Timedout ==> -spec.stop < ret < spec.target)
  {
    PriceRatio(bar.close, entry, -spec.stop);
    PriceRatio(bar.close, entry, spec.target);
  }

  lemma VerdictPays(h: History, i: nat)
    requires h.Valid() && i < |h.points| && h.Eligible(i) && SaneBars(h.sim.candles)
    ensures var r := h.TradeAt(i).outcome;
            && (r.verdict == Win ==> r.ret == h.spec.target)
            && (r.verdict == Loss ==> r.ret == -h.spec.stop)
            && (r.verdict == Timedout ==> -h.spec.stop < r.ret < h.spec.target)
  {
    hide ReturnOn, VerdictOn, WorstDip, StopPrice, TargetPrice;
    ExitBarPays(h.sim.candles[ExitBar(h.candles[i], h.spec, h.sim)], h.candles[i].close, h.spec);
  }

  ghost predicate PaysByVerdict(log: seq<Trade>, spec: TrackSpec) {
    forall k :: 0 <= k < |log| ==>
      var r := log[k].outcome;
      && (r.verdict == Win ==> r.ret == spec.target)
      && (r.verdict == Loss ==> r.ret == -spec.stop)
      && (r.verdict == Timedout ==> -spec.stop < r.ret < spec.target)
  }

  function Times(count: nat, amount: real): real { count as real * amount }

  lemma TimesStep(count: nat, amount: real)
    ensures Times(0, amount) == 0.0
    ensures Times(count + 1, amount) == Times(count, amount) + amount
  {
    assert (count + 1) as real == count as real + 1.0;
  }

  /** The sum of returns, split by verdict. */
  ghost predicate Accounts(log: seq<Trade>, spec: TrackSpec) {
    var wins, losses, timeouts := CountVerdicts(log, Win), CountVerdicts(log, Loss), CountVerdicts(log, Timedout);
    && |log| == wins + losses + timeouts
    && SumReturns(log) == Times(wins, spec.target) - Times(losses, spec.stop) + SumTimeoutReturns(log)
    && if timeouts == 0 then SumTimeoutReturns(log) == 0.0
       else -Times(timeouts, spec.stop) < SumTimeoutReturns(log) < Times(timeouts, spec.target)
  }

  lemma {:induction false} Accounting(log: seq<Trade>, spec: TrackSpec)
    requires PaysByVerdict(log, spec)
    ensures Accounts(log, spec)
  {
    hide Times;
    TimesStep(0, spec.target);
    TimesStep(0, spec.stop);
    if log != [] {
      var front := log[..|log| - 1];
      Accounting(front, spec);
      TimesStep(CountVerdicts(front, Win), spec.target);
      TimesStep(CountVerdicts(front, Loss), spec.stop);
      TimesStep(CountVerdicts(front, Timedout), spec.target);
      TimesStep(CountVerdicts(front, Timedout), spec.stop);
    }
  }

  /** The published figures: counts add up, and the expected return lies between the bounds
      that the counts alone impose, strictly if anything timed out; hence it lies between
      -stop and target. */
  lemma ReturnAccounting(h: History)
    requires h.Valid() && SaneBars(h.sim.candles) && -h.spec.stop <= h.spec.target
    ensures var s := TallyOf(TradeLog(h)).Stats();
            && s.n == s.hitCount + s.lossCount + s.timeoutCount
            && (s.n > 0 ==> Bounded(s, h.spec))
  {
    hide History.TradeAt;
    var log := TradeLog(h);
    LogShape(h, |h.points|);
    forall k | 0 <= k < |log| {
      VerdictPays(h, log[k].index);
    }
    Accounting(log, h.spec);
    if log != [] {
      MeanBetween(log, h.spec);
    }
  }

  ghost predicate Bounded(s: TrackStats, spec: TrackSpec)
    requires s.n > 0
  {
    var wins, losses, timeouts := s.hitCount as real, s.lossCount as real, s.timeoutCount as real;
    var low := wins * spec.target - losses * spec.stop - timeouts * spec.stop;
    var high := wins * spec.target - losses * spec.stop + timeouts * spec.target;
    && s.expectedReturn.Some?
    && low <= s.expectedReturn.value * s.n as real <= high
    && (s.timeoutCount > 0 ==> low < s.expectedReturn.value * s.n as real < high)
    && -spec.stop <= s.expectedReturn.value <= spec.target
  }

  lemma MeanBetween(log: seq<Trade>, spec: TrackSpec)
    requires log != [] && Accounts(log, spec) && -spec.stop <= spec.target
    ensures Bounded(TallyOf(log).Stats(), spec)
  {
    hide CountVerdicts, SumReturns, WorstDrawdown, SumTimeoutReturns;
    var wins, losses := CountVerdicts(log, Win) as real, CountVerdicts(log, Loss) as real;
    var timeouts, n := CountVerdicts(log, Timedout) as real, |log| as real;
    var mean := SumReturns(log) / n;
    assert mean * n == SumReturns(log);
    MeanBounds(mean, wins, losses, timeouts, spec.target, spec.stop);
  }

  lemma MeanBounds(mean: real, wins: real, losses: real, timeouts: real, target: real, stop: real)
    requires wins >= 0.0 && losses >= 0.0 && timeouts >= 0.0 && wins + losses + timeouts > 0.0 && -stop <= target
    requires var sum := mean * (wins + losses + timeouts);
             wins * target - losses * stop - timeouts * stop <= sum <= wins * target - losses * stop + timeouts * target
    ensures -stop <= mean <= target
  {
    var n := wins + losses + timeouts;
    assert wins * (target + stop) >= 0.0 && losses * (target + stop) >= 0.0;
    assert n * target == wins * target + losses * target + timeouts * target;
    assert n * stop == wins * stop + losses * stop + timeouts * stop;
    Scale(-stop, mean, n);
    Scale(mean, target, n);
  }

  // ---- the live entry ----------------------------------------------------------------------

  /** What is recommended now is what the backtest will count: the newest bar is offered exactly
      when every later history that can judge it finds it eligible, and then that history's log
      counts it unless a counted position is strictly open at that moment. */
  lemma LatestEntryIsBacktested(h: History, later: History)
    requires h.Valid() && later.Valid() && Extends(h, later) && h.points != []
    requires Judgeable(later.candles[|h.points| - 1], later.spec, later.sim)
    ensures var i := |h.points| - 1;
            && (LatestEntry(h) == Some(i) <==> later.Eligible(i))
            && (LatestEntry(h).Some? ==> later.TradeAt(i) in TradeLog(later) || HeldAt(TradeLog(later), h.Moment(i)))
  {
    hide History.Signals, Judgeable, LogUpTo, WellShaped;
    var i := |h.points| - 1;
    SignalsStable(h, later, i);
    SignalsMeans(h);
    LogShape(later, |later.points|);
  }

  lemma SignalsMeans(h: History)
    requires h.Valid() && h.points != []
    ensures LatestEntry(h) == if h.Signals(|h.points| - 1) then Some(|h.points| - 1) else None
  {
  }

  // ---- drawdown ----------------------------------------------------------------------------

  lemma DipReachesStop(bar: Candle, entry: real, spec: TrackSpec)
    requires entry > 0.0
    ensures Dip(bar, entry) <= -spec.stop <==> HitsStop(bar, StopPrice(entry, spec))
  {
    PriceRatio(bar.low, entry, -spec.stop);
  }

  /** The dip of one trade reaches the stop exactly when the trade is a loss. */
  lemma DipReachesStopIffLoss(h: History, i: nat)
    requires h.Valid() && i < |h.points| && h.Eligible(i)
    ensures h.TradeAt(i).drawdown <= -h.spec.stop <==> h.TradeAt(i).outcome.verdict == Loss
  {
    hide Dip, WorstDip, StopPrice, TargetPrice, ReturnOn;
    var entry, bars := h.candles[i].close, h.sim.candles;
    var from, exit := h.Start(i) + 1, ExitBar(h.candles[i], h.spec, h.sim);
    WorstDipIsLeast(bars, entry, from, exit + 1);
    var k :| from <= k < exit + 1 && WorstDip(bars, entry, from, exit + 1) == Dip(bars[k], entry);
    DipReachesStop(bars[k], entry, h.spec);
    DipReachesStop(bars[exit], entry, h.spec);
    assert k < exit ==> !HitsStop(bars[k], StopPrice(entry, h.spec));
    assert WorstDip(bars, entry, from, exit + 1) <= Dip(bars[exit], entry);
  }

  lemma {:induction false} NoLossCounted(log: seq<Trade>)
    ensures CountVerdicts(log, Loss) > 0 <==> exists k :: 0 <= k < |log| && log[k].outcome.verdict == Loss
  {
    if log != [] {
      var front := log[..|log| - 1];
      NoLossCounted(front);
      if k :| 0 <= k < |front| && front[k].outcome.verdict == Loss {
        assert log[k].outcome.verdict == Loss;
      }
    }
  }

  /** The published drawdown reaches the stop level exactly when some trade was stopped out. */
  lemma {:induction false} DrawdownReachesStopIffLoss(h: History)
    requires h.Valid() && TradeLog(h) != []
    ensures var s := TallyOf(TradeLog(h)).Stats();
            s.maxDrawdown.Some? && (s.maxDrawdown.value <= -h.spec.stop <==> s.lossCount > 0)
  {
    hide History.Eligible, History.TradeAt, Covers, LogUpTo, CountVerdicts, History.Moment;
    var log := TradeLog(h);
    LogShape(h, |h.points|);
    NoLossCounted(log);
    forall k | 0 <= k < |log|
      ensures log[k].drawdown <= -h.spec.stop <==> log[k].outcome.verdict == Loss
    {
      DipReachesStopIffLoss(h, log[k].index);
    }
  }
}
