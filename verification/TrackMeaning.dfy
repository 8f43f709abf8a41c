/** What the trade log holds, on the bars and their numbers alone (src/tracks.py): which bars are
    entries, how each position runs, and which entries are counted. */
module TrackMeaning {
  import opened Domain
  import opened Tracks
  import opened TrackTheorems

  /** Bar i is an entry: the tenkan crosses the kijun upward, above the cloud where the track asks for
      it, and with a context the coin's RSI is at least 50 and bitcoin was last seen above its cloud. */
  ghost predicate Enters(h: History, i: nat)
    requires |h.points| <= |h.candles|
  {
    && 0 < i < |h.points|
    && h.points[i].tenkan.Some? && h.points[i].kijun.Some?
    && h.points[i - 1].tenkan.Some? && h.points[i - 1].kijun.Some?
    && h.points[i].tenkan.value > h.points[i].kijun.value
    && h.points[i - 1].tenkan.value <= h.points[i - 1].kijun.value
    && (h.spec.requireAboveCloud ==>
          && h.points[i].senkouA.Some? && h.points[i].senkouB.Some?
          && h.points[i].close > h.points[i].senkouA.value && h.points[i].close > h.points[i].senkouB.value)
    && (h.context.Some? ==>
          var c, closing := h.context.value, CloseTime(h.candles[i]);
          && i < |c.rsi| && c.rsi[i].Some? && c.rsi[i].value >= 50.0
          && exists k ::
               && 0 <= k < |c.btcTimes| && k < |c.btcAbove| && c.btcAbove[k]
               && IsLatest(c.btcTimes, closing, k))
  }

  lemma SignalsAre(h: History, i: nat)
    requires h.Valid() && i < |h.points|
    ensures h.Signals(i) <==> Enters(h, i)
  {
    hide IsLatest, AsOf, Length;
    if h.context.Some? {
      var c := h.context.value;
      AsOfIsLatest(c.btcTimes, c.btcAbove, CloseTime(h.candles[i]));
      forall k: int | IsLatest(c.btcTimes, CloseTime(h.candles[i]), k)
        ensures 0 <= k < |c.btcTimes|
      {
        InRange(c.btcTimes, CloseTime(h.candles[i]), k);
      }
    }
  }

  /** s is the last judging bar closed with the entry, and the whole hold after it is there. */
  ghost predicate Holds(h: History, i: nat, s: nat)
    requires |h.points| <= |h.candles| && i < |h.points| && h.spec.simTimeframe != M1
  {
    && IsLatest(CloseTimes(h.sim.candles), CloseTime(h.candles[i]), s)
    && s + BarsFor(h.spec) < |h.sim.candles|
  }

  lemma JudgeableIs(h: History, i: nat)
    requires h.Valid() && i < |h.points|
    ensures Judgeable(h.candles[i], h.spec, h.sim)
            <==> h.candles[i].close > 0.0 && h.Start(i) >= 0 && Holds(h, i, h.Start(i))
    ensures forall s: nat :: Holds(h, i, s) ==> s == h.Start(i)
  {
    hide BarsFor, Length, CountUpTo, IsLatest;
    var times, closing := h.sim.closeTimes, CloseTime(h.candles[i]);
    if h.Start(i) >= 0 {
      LatestIs(times, closing, h.Start(i));
    }
    forall s: nat | Holds(h, i, s)
      ensures s == h.Start(i)
    {
      LatestIs(times, closing, s);
    }
  }

  /** The race from judging bar s ends on judging bar j: no earlier bar reaches a price, the stop wins a
      tie, and an untouched hold settles at its last close. */
  ghost predicate Ends(h: History, t: Trade, s: nat, j: nat)
    requires |h.points| <= |h.candles| && t.index < |h.points| && h.spec.simTimeframe != M1
  {
    var entry, bars := h.candles[t.index].close, h.sim.candles;
    var stop, target := entry * (1.0 - h.spec.stop), entry * (1.0 + h.spec.target);
    && s < j <= s + BarsFor(h.spec) < |bars|
    && (forall q :: s < q < j ==> stop < bars[q].low && bars[q].high < target)
    && t.entryAt == CloseTime(h.candles[t.index]) && t.outcome.exitAt == CloseTime(bars[j])
    && match t.outcome.verdict
       case Loss => bars[j].low <= stop && t.outcome.ret == -h.spec.stop
       case Win => stop < bars[j].low && target <= bars[j].high && t.outcome.ret == h.spec.target
       case Timedout =>
         && j == s + BarsFor(h.spec) && stop < bars[j].low && bars[j].high < target
         && entry * (1.0 + t.outcome.ret) == bars[j].close
  }

  /** The drawdown is the deepest dip of the bars up to the exit, relative to the entry. */
  ghost predicate Dips(h: History, t: Trade, s: nat, j: nat)
    requires |h.points| <= |h.candles| && t.index < |h.points|
  {
    var entry, bars := h.candles[t.index].close, h.sim.candles;
    && s < j < |bars|
    && (forall q :: s < q <= j ==> entry * (1.0 + t.drawdown) <= bars[q].low)
    && (exists q :: s < q <= j && entry * (1.0 + t.drawdown) == bars[q].low)
  }

  /** What trade t records of the position entered on its bar. */
  ghost predicate Plays(h: History, t: Trade, s: nat, j: nat)
    requires |h.points| <= |h.candles| && t.index < |h.points| && h.spec.simTimeframe != M1
  {
    h.candles[t.index].close > 0.0 && Holds(h, t.index, s) && Ends(h, t, s, j) && Dips(h, t, s, j)
  }

  lemma Undo(price: real, entry: real)
    requires entry > 0.0
    ensures entry * (1.0 + (price / entry - 1.0)) == price
  {
  }

  lemma Grow(x: real, y: real, entry: real)
    requires entry > 0.0 && x <= y
    ensures entry * (1.0 + x) <= entry * (1.0 + y)
  {
  }

  lemma PricesAre(entry: real, spec: TrackSpec)
    ensures StopPrice(entry, spec) == entry * (1.0 - spec.stop)
    ensures TargetPrice(entry, spec) == entry * (1.0 + spec.target)
  {
  }

  lemma TradeEnds(h: History, i: nat)
    requires h.Valid() && i < |h.points| && h.Eligible(i)
    ensures Ends(h, h.TradeAt(i), h.Start(i), ExitBar(h.candles[i], h.spec, h.sim))
  {
    hide BarsFor, Length, CountUpTo, WorstDip, EntryOk, AuxOk, StopPrice, TargetPrice;
    var entry, bars, j := h.candles[i].close, h.sim.candles, ExitBar(h.candles[i], h.spec, h.sim);
    PricesAre(entry, h.spec);
    Undo(bars[j].close, entry);
  }

  lemma DipLevel(bar: Candle, entry: real, x: real)
    requires entry > 0.0
    ensures x <= Dip(bar, entry) ==> entry * (1.0 + x) <= bar.low
    ensures x == Dip(bar, entry) ==> entry * (1.0 + x) == bar.low
  {
    Undo(bar.low, entry);
    if x <= Dip(bar, entry) {
      Grow(x, Dip(bar, entry), entry);
    }
  }

  lemma WorstLevel(bars: seq<Candle>, entry: real, from: nat, end: nat)
    requires entry > 0.0 && from < end <= |bars|
    ensures var level := entry * (1.0 + WorstDip(bars, entry, from, end));
            && (forall q :: from <= q < end ==> level <= bars[q].low)
            && exists q :: from <= q < end && level == bars[q].low
  {
    hide WorstDip, Dip;
    WorstDipIsLeast(bars, entry, from, end);
    var worst := WorstDip(bars, entry, from, end);
    forall q | from <= q < end
      ensures entry * (1.0 + worst) <= bars[q].low
    {
      DipLevel(bars[q], entry, worst);
    }
    var q :| from <= q < end && worst == Dip(bars[q], entry);
    DipLevel(bars[q], entry, worst);
  }

  lemma TradeDips(h: History, i: nat)
    requires h.Valid() && i < |h.points| && h.Eligible(i)
    ensures Dips(h, h.TradeAt(i), h.Start(i), ExitBar(h.candles[i], h.spec, h.sim))
  {
    hide BarsFor, Length, CountUpTo, WorstDip, EntryOk, AuxOk, StopPrice, TargetPrice, ExitBar, SimulateSpec;
    WorstLevel(h.sim.candles, h.candles[i].close, h.Start(i) + 1, ExitBar(h.candles[i], h.spec, h.sim) + 1);
  }

  lemma TradePlays(h: History, i: nat) returns (s: nat, j: nat)
    requires h.Valid() && i < |h.points| && h.Eligible(i)
    ensures h.TradeAt(i).index == i && Plays(h, h.TradeAt(i), s, j)
  {
    hide BarsFor, Length, CountUpTo, IsLatest, Holds, WorstDip, EntryOk, AuxOk, Ends, Dips, ExitBar;
    JudgeableIs(h, i);
    s, j := h.Start(i), ExitBar(h.candles[i], h.spec, h.sim);
    TradeEnds(h, i);
    TradeDips(h, i);
  }

  /** Every counted trade sits on an entry bar and is the race that follows it. */
  lemma TradesAreRaces(h: History, k: nat)
    requires h.Valid() && k < |TradeLog(h)|
    ensures var t := TradeLog(h)[k];
            t.index < |h.points| && Enters(h, t.index) && exists s: nat, j: nat :: Plays(h, t, s, j)
  {
    hide Plays, Enters, History.TradeAt, Judgeable;
    LogShape(h, |h.points|);
    var i := TradeLog(h)[k].index;
    SignalsAre(h, i);
    var s, j := TradePlays(h, i);
  }

  /** Every entry bar with a positive close and its whole hold is counted, unless a counted position is
      strictly open when it closes. */
  lemma EntriesAreTraded(h: History, i: nat, s: nat)
    requires h.Valid() && i < |h.points| && Enters(h, i) && h.candles[i].close > 0.0 && Holds(h, i, s)
    ensures || (exists k :: 0 <= k < |TradeLog(h)| && TradeLog(h)[k].index == i)
            || (exists k ::
                  && 0 <= k < |TradeLog(h)|
                  && TradeLog(h)[k].entryAt < CloseTime(h.candles[i]) < TradeLog(h)[k].outcome.exitAt)
  {
    hide Enters, Holds, Judgeable, TradeLog, HeldAt, History.TradeAt, History.Signals, History.Start;
    SignalsAre(h, i);
    JudgeableIs(h, i);
    CountedOrHeld(h, i);
  }

  lemma CountedOrHeld(h: History, i: nat)
    requires h.Valid() && i < |h.points| && h.Eligible(i)
    ensures || (exists k :: 0 <= k < |TradeLog(h)| && TradeLog(h)[k].index == i)
            || (exists k ::
                  && 0 <= k < |TradeLog(h)|
                  && TradeLog(h)[k].entryAt < CloseTime(h.candles[i]) < TradeLog(h)[k].outcome.exitAt)
  {
    hide Judgeable, LogUpTo, WellShaped, History.TradeAt, Length;
    LogShape(h, |h.points|);
    TradeStamps(h, i);
    var log := TradeLog(h);
    if h.TradeAt(i) in log {
      var k :| 0 <= k < |log| && log[k] == h.TradeAt(i);
    }
  }
}
