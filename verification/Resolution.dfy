/** Judging on coarser bars (src/tracks.py, module comment and `simulate`): merging k bars into
    one can only turn a win into a loss, never the other way. */
module Resolution {
  import opened Domain
  import opened Tracks

  // ---- merging bars ------------------------------------------------------------------------

  /** Index of the first fine bar of coarse bar m. */
  function Block(m: nat, k: nat): nat { m * k }

  lemma BlockStep(m: nat, k: nat)
    ensures Block(0, k) == 0 && Block(m + 1, k) == Block(m, k) + k
  {
  }

  lemma {:induction false} BlocksAscend(m: nat, n: nat, k: nat)
    requires m <= n
    ensures Block(m, k) <= Block(n, k)
    ensures m < n ==> Block(m, k) + k <= Block(n, k)
  {
    if m < n {
      BlocksAscend(m, n - 1, k);
      BlockStep(n - 1, k);
    }
  }

  /** The block that holds fine bar q, searched downward from block n. */
  lemma {:induction false} BlockOf(q: nat, n: nat, k: nat) returns (m: nat)
    requires q < Block(n, k)
    ensures m < n && Block(m, k) <= q < Block(m, k) + k
  {
    hide Block;
    BlockStep(0, k);
    BlockStep(n - 1, k);
    if q >= Block(n - 1, k) {
      m := n - 1;
    } else {
      m := BlockOf(q, n - 1, k);
    }
  }

  /** `coarse` is the bar printed for fine bars from .. from+k-1: extreme prices, last close. */
  ghost predicate Merges(coarse: Candle, fine: seq<Candle>, from: nat, k: nat)
    requires from + k <= |fine| && k > 0
  {
    && (forall q :: from <= q < from + k ==> coarse.low <= fine[q].low && fine[q].high <= coarse.high)
    && (exists q :: from <= q < from + k && fine[q].low == coarse.low)
    && (exists q :: from <= q < from + k && fine[q].high == coarse.high)
    && coarse.close == fine[from + k - 1].close
    && CloseTime(coarse) == CloseTime(fine[from + k - 1])
  }

  ghost predicate MergesAll(coarse: seq<Candle>, fine: seq<Candle>, k: nat) {
    && k > 0
    && |fine| == Block(|coarse|, k)
    && forall m :: 0 <= m < |coarse| ==> Block(m, k) + k <= |fine| && Merges(coarse[m], fine, Block(m, k), k)
  }

  // ---- the race on both grids --------------------------------------------------------------

  predicate Touches(bar: Candle, stopPrice: real, targetPrice: real) {
    HitsStop(bar, stopPrice) || HitsTarget(bar, targetPrice)
  }

  lemma CoarseTouchesIffSomeFineDoes(coarse: Candle, fine: seq<Candle>, from: nat, k: nat, stop: real, target: real)
    requires k > 0 && from + k <= |fine| && Merges(coarse, fine, from, k)
    ensures HitsStop(coarse, stop) <==> exists q :: from <= q < from + k && HitsStop(fine[q], stop)
    ensures HitsTarget(coarse, target) <==> exists q :: from <= q < from + k && HitsTarget(fine[q], target)
  {
    var low :| from <= low < from + k && fine[low].low == coarse.low;
    var high :| from <= high < from + k && fine[high].high == coarse.high;
    assert HitsStop(coarse, stop) ==> HitsStop(fine[low], stop);
    assert HitsTarget(coarse, target) ==> HitsTarget(fine[high], target);
  }

  /** The fine race stops inside the coarse bar on which the coarse race stops. */
  lemma SameBlock(coarse: seq<Candle>, fine: seq<Candle>, k: nat, stop: real, target: real, from: nat, end: nat)
    requires MergesAll(coarse, fine, k) && from <= end <= |coarse|
    ensures Block(from, k) <= Block(end, k) <= |fine|
    ensures var c := FirstTouch(coarse, stop, target, from, end);
            var f := FirstTouch(fine, stop, target, Block(from, k), Block(end, k));
            if c == end then f == Block(end, k) else Block(c, k) <= f < Block(c, k) + k
  {
    hide Block;
    BlocksAscend(from, end, k);
    BlocksAscend(end, |coarse|, k);
    var c := FirstTouch(coarse, stop, target, from, end);
    var f := FirstTouch(fine, stop, target, Block(from, k), Block(end, k));
    BlocksAscend(c, end, k);
    if f < Block(c, k) {
      var m := BlockOf(f, c, k);
      if m < from {
        BlocksAscend(m, from, k);
      }
      CoarseTouchesIffSomeFineDoes(coarse[m], fine, Block(m, k), k, stop, target);
      assert false;
    }
    if c < end {
      CoarseTouchesIffSomeFineDoes(coarse[c], fine, Block(c, k), k, stop, target);
      BlocksAscend(from, c, k);
    }
  }

  // ---- hold windows --------------------------------------------------------------------------

  /** The judging bars of an entry's hold: all that `simulate` reads after the entry. */
  function Window(entry: Candle, spec: TrackSpec, sim: SimSeries): (window: seq<Candle>)
    requires spec.simTimeframe != M1 && sim.Valid() && Judgeable(entry, spec, sim)
    ensures |window| == BarsFor(spec)
  {
    var start := sim.IndexAt(CloseTime(entry));
    sim.candles[start + 1..start + 1 + BarsFor(spec)]
  }

  /** Where a race over a window ends: on the first bar that reaches a price, else on the last. */
  function EndOf(window: seq<Candle>, stop: real, target: real): (j: nat)
    requires window != []
    ensures j < |window|
    ensures forall q :: 0 <= q < j ==> !Touches(window[q], stop, target)
    ensures Touches(window[j], stop, target) || j == |window| - 1
  {
    var j := FirstTouch(window, stop, target, 0, |window|);
    if j < |window| then j else |window| - 1
  }

  /** The race over merged bars against the race over the bars they merge: both end in the same
      merged bar, and the merged race meets the stop exactly when the other does, on its last bar
      or on a later one of that merged bar. */
  lemma RacesAgree(window: seq<Candle>, bars: seq<Candle>, k: nat, stop: real, target: real)
    requires MergesAll(window, bars, k) && window != []
    ensures bars != []
    ensures var c, f := EndOf(window, stop, target), EndOf(bars, stop, target);
            var end := Block(c, k) + k;
            && Block(c, k) <= f < end <= |bars|
            && (Touches(window[c], stop, target) <==> Touches(bars[f], stop, target))
            && (!Touches(bars[f], stop, target) ==> f == end - 1)
            && (HitsStop(window[c], stop) <==> exists q :: f <= q < end && HitsStop(bars[q], stop))
  {
    hide Block, FirstTouch, Merges;
    SameBlock(window, bars, k, stop, target, 0, |window|);
    BlockStep(0, k);
    BlockStep(|window| - 1, k);
    BlocksAscend(1, |window|, k);
    var c, f := EndOf(window, stop, target), EndOf(bars, stop, target);
    BlocksAscend(c, |window|, k);
    CoarseTouchesIffSomeFineDoes(window[c], bars, Block(c, k), k, stop, target);
    assert forall q :: Block(c, k) <= q < f ==> !Touches(bars[q], stop, target);
  }

  lemma WindowTouch(bars: seq<Candle>, stop: real, target: real, from: nat, end: nat)
    requires from <= end <= |bars|
    ensures FirstTouch(bars, stop, target, from, end) == from + FirstTouch(bars[from..end], stop, target, 0, end - from)
  {
    var window := bars[from..end];
    var j := FirstTouch(window, stop, target, 0, end - from);
    assert forall q :: from <= q < end ==> bars[q] == window[q - from];
    FirstTouchIs(bars, stop, target, from, end, from + j);
  }

  /** The outcome is read off the hold window alone. */
  lemma OutcomeOfWindow(entry: Candle, spec: TrackSpec, sim: SimSeries)
    requires spec.simTimeframe != M1 && sim.Valid() && Judgeable(entry, spec, sim)
    ensures var window := Window(entry, spec, sim);
            var bar := window[EndOf(window, StopPrice(entry.close, spec), TargetPrice(entry.close, spec))];
            SimulateSpec(entry, spec, sim)
            == Some(Simulated(VerdictOn(bar, entry.close, spec), ReturnOn(bar, entry.close, spec), CloseTime(bar)))
  {
    hide StopPrice, TargetPrice, FirstTouch, CountUpTo, Length, BarsFor, ReturnOn, VerdictOn;
    var start := sim.IndexAt(CloseTime(entry));
    var from, end := start + 1, start + 1 + BarsFor(spec);
    var window := Window(entry, spec, sim);
    var stop, target := StopPrice(entry.close, spec), TargetPrice(entry.close, spec);
    WindowTouch(sim.candles, stop, target, from, end);
    assert ExitBar(entry, spec, sim) == from + EndOf(window, stop, target);
  }

  // ---- the theorem -------------------------------------------------------------------------

  /** Two ways of judging one entry: the coarse hold window merges the fine one k bars at a time.
      Nothing is asked of the bars outside the hold. */
  ghost predicate SameHold(entry: Candle, coarseSpec: TrackSpec, coarse: SimSeries, spec: TrackSpec, fine: SimSeries,
                           k: nat) {
    && coarse.Valid() && fine.Valid()
    && coarseSpec.simTimeframe != M1 && spec.simTimeframe != M1
    && coarseSpec.target == spec.target && coarseSpec.stop == spec.stop
    && Judgeable(entry, coarseSpec, coarse) && Judgeable(entry, spec, fine)
    && MergesAll(Window(entry, coarseSpec, coarse), Window(entry, spec, fine), k)
  }

  /** Bar f of the fine window was a win, and a later bar before `end` reached the stop. */
  ghost predicate StopAfterWin(entry: real, spec: TrackSpec, fine: seq<Candle>, f: nat, end: nat)
    requires f < end <= |fine|
  {
    && VerdictOn(fine[f], entry, spec) == Win
    && exists q :: f < q < end && HitsStop(fine[q], StopPrice(entry, spec))
  }

  lemma SamePrices(entry: real, a: TrackSpec, b: TrackSpec)
    requires a.target == b.target && a.stop == b.stop
    ensures StopPrice(entry, a) == StopPrice(entry, b) && TargetPrice(entry, a) == TargetPrice(entry, b)
  {
  }

  lemma ClosesAscend(entry: Candle, spec: TrackSpec, sim: SimSeries, i: nat, j: nat)
    requires spec.simTimeframe != M1 && sim.Valid() && Judgeable(entry, spec, sim) && i <= j < BarsFor(spec)
    ensures CloseTime(Window(entry, spec, sim)[i]) <= CloseTime(Window(entry, spec, sim)[j])
  {
    hide BarsFor, CountUpTo, Length;
    var start := sim.IndexAt(CloseTime(entry));
    assert i < j ==> sim.closeTimes[start + 1 + i] < sim.closeTimes[start + 1 + j];
  }

  /** Coarse judging is biased only towards loss. Both exits fall in the same coarse bar, the
      verdicts differ exactly when a fine win is followed by a stop touch inside that bar, and the
      coarse return is then the smaller; otherwise the returns are equal. */
  lemma CoarseJudgingOnlyLoses(
    entry: Candle, coarseSpec: TrackSpec, coarse: SimSeries, spec: TrackSpec, fine: SimSeries, k: nat)
    requires SameHold(entry, coarseSpec, coarse, spec, fine, k)
    ensures SimulateSpec(entry, coarseSpec, coarse).Some? && SimulateSpec(entry, spec, fine).Some?
    ensures var c, f := SimulateSpec(entry, coarseSpec, coarse).value, SimulateSpec(entry, spec, fine).value;
            var stop, target := StopPrice(entry.close, spec), TargetPrice(entry.close, spec);
            var window := Window(entry, spec, fine);
            var last := EndOf(window, stop, target);
            var end := Block(EndOf(Window(entry, coarseSpec, coarse), stop, target), k) + k;
            && last < end <= |window|
            && f.exitAt <= c.exitAt
            && (f.verdict == Loss ==> c.verdict == Loss)
            && (c.verdict == Win ==> f.verdict == Win)
            && (f.verdict == Timedout <==> c.verdict == Timedout)
            && (if StopAfterWin(entry.close, spec, window, last, end) then c.verdict == Loss && f.verdict == Win
                else c.verdict == f.verdict && c.ret == f.ret)
            && (-spec.stop <= spec.target ==> c.ret <= f.ret)
  {
    hide Block, BarsFor, StopPrice, TargetPrice, Merges, EndOf, CountUpTo, Length, SimulateSpec, Window, Judgeable;
    SamePrices(entry.close, coarseSpec, spec);
    OutcomeOfWindow(entry, coarseSpec, coarse);
    OutcomeOfWindow(entry, spec, fine);
    var stop, target := StopPrice(entry.close, spec), TargetPrice(entry.close, spec);
    var merged, window := Window(entry, coarseSpec, coarse), Window(entry, spec, fine);
    RacesAgree(merged, window, k, stop, target);
    var c, f := EndOf(merged, stop, target), EndOf(window, stop, target);
    MergedClose(merged, window, k, c);
    ClosesAscend(entry, spec, fine, f, Block(c, k) + k - 1);
  }

  lemma MergedClose(merged: seq<Candle>, window: seq<Candle>, k: nat, c: nat)
    requires MergesAll(merged, window, k) && c < |merged|
    ensures k > 0 && Block(c, k) + k <= |window|
    ensures var last := window[Block(c, k) + k - 1];
            CloseTime(last) == CloseTime(merged[c]) && last.close == merged[c].close
  {
    hide Block, Length;
  }

  // ---- which entries both grids can judge ------------------------------------------------------

  /** The bars that close after the entry. */
  function After(entry: Candle, sim: SimSeries): (tail: seq<Candle>)
    requires sim.Valid()
    ensures |tail| == |sim.candles| - 1 - sim.IndexAt(CloseTime(entry))
  {
    sim.candles[sim.IndexAt(CloseTime(entry)) + 1..]
  }

  /** After the entry the two grids run in step; fewer than k fine bars may await their coarse bar. */
  ghost predicate InStep(coarse: seq<Candle>, fine: seq<Candle>, k: nat) {
    && Block(|coarse|, k) <= |fine| < Block(|coarse|, k) + k
    && MergesAll(coarse, fine[..Block(|coarse|, k)], k)
  }

  /** A hold fits into the coarse bars exactly when it fits into the fine ones. */
  lemma HoldFits(hold: nat, bars: nat, fineBars: nat, k: nat)
    requires Block(bars, k) <= fineBars < Block(bars, k) + k
    ensures hold <= bars <==> Block(hold, k) <= fineBars
  {
    hide Block;
    if hold <= bars {
      BlocksAscend(hold, bars, k);
    } else {
      BlocksAscend(bars, hold, k);
    }
  }

  lemma JudgeableAfter(entry: Candle, spec: TrackSpec, sim: SimSeries)
    requires spec.simTimeframe != M1 && sim.Valid()
    ensures Judgeable(entry, spec, sim) <==>
            entry.close > 0.0 && sim.IndexAt(CloseTime(entry)) >= 0 && BarsFor(spec) <= |After(entry, sim)|
  {
    hide BarsFor, CountUpTo, Length;
  }

  /** Grids in step after the entry can judge the same entries, and their hold windows merge. */
  lemma SameEntries(entry: Candle, coarseSpec: TrackSpec, coarse: SimSeries, spec: TrackSpec, fine: SimSeries, k: nat)
    requires coarse.Valid() && fine.Valid()
    requires coarseSpec.simTimeframe != M1 && spec.simTimeframe != M1
    requires coarseSpec.target == spec.target && coarseSpec.stop == spec.stop
    requires BarsFor(spec) == Block(BarsFor(coarseSpec), k)
    requires coarse.IndexAt(CloseTime(entry)) >= 0 <==> fine.IndexAt(CloseTime(entry)) >= 0
    requires InStep(After(entry, coarse), After(entry, fine), k)
    ensures Judgeable(entry, coarseSpec, coarse) <==> Judgeable(entry, spec, fine)
    ensures Judgeable(entry, spec, fine) ==> SameHold(entry, coarseSpec, coarse, spec, fine, k)
  {
    hide Block, BarsFor, SimSeries.IndexAt, SimSeries.Valid, After, MergesAll, Judgeable, Window, CloseTime;
    var tail, rest, hold := After(entry, coarse), After(entry, fine), BarsFor(coarseSpec);
    HoldFits(hold, |tail|, |rest|, k);
    JudgeableAfter(entry, coarseSpec, coarse);
    JudgeableAfter(entry, spec, fine);
    if Judgeable(entry, spec, fine) {
      HoldOfTail(entry, coarseSpec, coarse);
      HoldOfTail(entry, spec, fine);
      HoldsMerge(tail, rest, k, hold);
    }
  }

  lemma HoldsMerge(tail: seq<Candle>, rest: seq<Candle>, k: nat, hold: nat)
    requires InStep(tail, rest, k) && hold <= |tail| && Block(hold, k) <= |rest|
    ensures MergesAll(tail[..hold], rest[..Block(hold, k)], k)
  {
    hide Block, MergesAll;
    BlocksAscend(hold, |tail|, k);
    MergesFirst(tail, rest[..Block(|tail|, k)], k, hold);
    assert rest[..Block(|tail|, k)][..Block(hold, k)] == rest[..Block(hold, k)];
  }

  lemma HoldOfTail(entry: Candle, spec: TrackSpec, sim: SimSeries)
    requires spec.simTimeframe != M1 && sim.Valid() && Judgeable(entry, spec, sim)
    ensures BarsFor(spec) <= |After(entry, sim)| && Window(entry, spec, sim) == After(entry, sim)[..BarsFor(spec)]
  {
    hide BarsFor, CountUpTo, Length;
  }

  lemma MergesFirst(coarse: seq<Candle>, fine: seq<Candle>, k: nat, n: nat)
    requires MergesAll(coarse, fine, k) && n <= |coarse|
    ensures Block(n, k) <= |fine| && MergesAll(coarse[..n], fine[..Block(n, k)], k)
  {
    hide Block;
    BlocksAscend(n, |coarse|, k);
    forall m | 0 <= m < n
      ensures Block(m, k) + k <= Block(n, k) && Merges(coarse[m], fine[..Block(n, k)], Block(m, k), k)
    {
      BlocksAscend(m, n, k);
      MergesPrefix(coarse[m], fine, Block(m, k), k, Block(n, k));
    }
  }

  lemma MergesPrefix(bar: Candle, fine: seq<Candle>, from: nat, k: nat, n: nat)
    requires k > 0 && from + k <= n <= |fine| && Merges(bar, fine, from, k)
    ensures Merges(bar, fine[..n], from, k)
  {
    var low :| from <= low < from + k && fine[low].low == bar.low;
    var high :| from <= high < from + k && fine[high].high == bar.high;
    assert fine[..n][low].low == bar.low && fine[..n][high].high == bar.high;
  }

  // ---- the bias is real --------------------------------------------------------------------------

  function Bar(timeframe: Timeframe, time: Time, low: real, high: real): Candle {
    Candle("BTCUSDT", timeframe, time, 100.0, high, low, 100.0, 1.0)
  }

  /** The first bar closes with the entry. */
  lemma StartsAtZero(sim: SimSeries, entry: Candle)
    requires sim.Valid() && |sim.candles| > 0 && CloseTime(sim.candles[0]) == CloseTime(entry)
    ensures sim.IndexAt(CloseTime(entry)) == 0
  {
    hide CountUpTo, Length;
    CountUpToOwn(sim.closeTimes, 0);
  }

  /** The day track's rules over one hour, judged on half hours and on hours. */
  const HOUR_HOLD := DAY_TRACK.(holdHours := 1)
  const HOUR_HOLD_COARSE := HOUR_HOLD.(simTimeframe := H1)

  lemma HourRules()
    ensures BarsFor(HOUR_HOLD) == 2 && BarsFor(HOUR_HOLD_COARSE) == 1
    ensures StopPrice(100.0, HOUR_HOLD) == 98.0 && TargetPrice(100.0, HOUR_HOLD) == 102.0
    ensures StopPrice(100.0, HOUR_HOLD_COARSE) == 98.0 && TargetPrice(100.0, HOUR_HOLD_COARSE) == 102.0
  {
    assert TrackMinutes(M30) == 30 && TrackMinutes(H1) == 60;
  }

  lemma HalvesMerge(both: Candle, up: Candle, down: Candle)
    requires both.low == down.low <= up.low && both.high == up.high >= down.high && both.close == down.close
    requires CloseTime(both) == CloseTime(down)
    ensures MergesAll([both], [up, down], 2)
  {
    hide Length;
    var window := [up, down];
    assert window[0] == up && window[1] == down;
  }

  /** The half-hour bars of a one-hour hold meet the target and then the stop; their hour only shows
      that both were met. The half hours judge a win, the hour a loss. */
  lemma CoarseLossReached() returns (entry: Candle, coarse: SimSeries, fine: SimSeries)
    ensures SameHold(entry, HOUR_HOLD_COARSE, coarse, HOUR_HOLD, fine, 2)
    ensures SimulateSpec(entry, HOUR_HOLD, fine).value.verdict == Win
    ensures SimulateSpec(entry, HOUR_HOLD_COARSE, coarse).value.verdict == Loss
  {
    hide CountUpTo, BarsFor, StopPrice, TargetPrice, MergesAll, EndOf;
    HourRules();
    entry := Bar(H1, 0, 100.0, 100.0);
    var up, down := Bar(M30, HOUR, 100.0, 103.0), Bar(M30, HOUR + 30 * MINUTE, 97.0, 100.0);
    var both := Bar(H1, HOUR, 97.0, 103.0);
    fine := BuildSimSeries([Bar(M30, 30 * MINUTE, 100.0, 100.0), up, down]);
    coarse := BuildSimSeries([entry, both]);
    StartsAtZero(fine, entry);
    StartsAtZero(coarse, entry);
    hide SimulateSpec;
    assert Window(entry, HOUR_HOLD, fine) == [up, down];
    assert Window(entry, HOUR_HOLD_COARSE, coarse) == [both];
    HalvesMerge(both, up, down);
    OutcomeOfWindow(entry, HOUR_HOLD, fine);
    OutcomeOfWindow(entry, HOUR_HOLD_COARSE, coarse);
    assert Touches([up, down][0], 98.0, 102.0);
  }

  /** The shipped tracks judge whole holds: 16, 48 and 96 half-hour bars, which are 2, 6 and 12
      four-hour bars. */
  lemma ShippedHolds(s: TrackSpec)
    requires s in TRACKS
    ensures BarsFor(s) * 30 == s.holdHours * 60
    ensures BarsFor(s) == Block(BarsFor(s.(simTimeframe := H4)), 8)
  {
    assert s == DAY_TRACK || s == MID_TRACK || s == LONG_TRACK;
    assert TrackMinutes(M30) == 30 && TrackMinutes(H4) == 240;
  }
}
