/** The regime track's backtest (src/backtest.py): entry signal, 24-bar trade and the sample of
    non-overlapping entries. */
module Backtest {
  import opened Domain
  import opened Regime
  import opened Wilson
  import Tracks

  const BREAKOUT_BARS: nat := 4
  const VOLUME_BARS: nat := 24
  const VOLUME_MULTIPLE := 2.0
  const KIJUN_RISE_BARS: nat := 6
  const MIN_SIGNAL_SAMPLES: nat := 10
  const MIN_HIT_RATE := 0.30
  const Z95 := 1.96

  type Point = Tracks.IchimokuPoint

  // ---- entry signal ------------------------------------------------------------------------

  function SumVolume(candles: seq<Candle>, from: nat, end: nat): real
    requires from <= end <= |candles|
    decreases end - from
  {
    if from == end then 0.0 else SumVolume(candles, from, end - 1) + candles[end - 1].volume
  }

  /** `entry_signal`: above the cloud, tenkan over a rising kijun, a close over the last four
      highs, and more than twice the day's average volume. */
  predicate EntrySignal(candles: seq<Candle>, points: seq<Point>, i: nat) {
    && VOLUME_BARS <= i && i < |points| && i < |candles|
    && points[i].tenkan.Some? && points[i].kijun.Some? && points[i].senkouA.Some? && points[i].senkouB.Some?
    && points[i].close > points[i].senkouA.value && points[i].close > points[i].senkouB.value
    && points[i].tenkan.value > points[i].kijun.value
    && points[i - KIJUN_RISE_BARS].kijun.Some? && points[i].kijun.value > points[i - KIJUN_RISE_BARS].kijun.value
    && (forall k :: i - BREAKOUT_BARS <= k < i ==> candles[i].close > candles[k].high)
    && var average := SumVolume(candles, i - VOLUME_BARS + 1, i + 1) / VOLUME_BARS as real;
       average > 0.0 && candles[i].volume > VOLUME_MULTIPLE * average
  }

  // ---- one trade ---------------------------------------------------------------------------

  datatype TradeOutcome = TradeOutcome(verdict: Tracks.Verdict, ret: real, drawdown: real)

  function Target(entry: real): real { entry * (1.0 + TARGET_RETURN) }
  function Stop(entry: real): real { entry * (1.0 - STOP_LOSS) }

  function Change(price: real, entry: real): real
    requires entry != 0.0
  {
    (price - entry) / entry
  }

  /** Deepest dip below the entry over bars [from, end), zero if there is none. */
  function Dip(candles: seq<Candle>, entry: real, from: nat, end: nat): real
    requires entry != 0.0 && from <= end <= |candles|
    decreases end - from
  {
    if from == end then 0.0 else Min(Dip(candles, entry, from, end - 1), Change(candles[end - 1].low, entry))
  }

  /** The 24 bars after bar i are all there. */
  predicate WindowFull(candles: seq<Candle>, i: nat) { i + FORWARD_BARS < |candles| }

  /** First-touch outcome over the 24 bars after bar i. */
  function TradeSpec(candles: seq<Candle>, i: nat): Option<TradeOutcome>
    requires i < |candles| && (WindowFull(candles, i) ==> candles[i].close != 0.0)
  {
    if !WindowFull(candles, i) then None else
    var entry, end := candles[i].close, i + 1 + FORWARD_BARS;
    var j := Tracks.FirstTouch(candles, Stop(entry), Target(entry), i + 1, end);
    Some(if j == end then TradeOutcome(Tracks.Timedout, Change(candles[end - 1].close, entry),
                                       Dip(candles, entry, i + 1, end))
         else if Tracks.HitsStop(candles[j], Stop(entry))
           then TradeOutcome(Tracks.Loss, -STOP_LOSS, Dip(candles, entry, i + 1, j + 1))
         else TradeOutcome(Tracks.Win, TARGET_RETURN, Dip(candles, entry, i + 1, j + 1)))
  }

  /** `simulate_trade`. */
  method SimulateTrade(candles: seq<Candle>, i: nat) returns (outcome: Option<TradeOutcome>)
    requires i < |candles| && (WindowFull(candles, i) ==> candles[i].close != 0.0)
    ensures outcome == TradeSpec(candles, i)
  {
    hide Change, Stop, Target;
    if |candles| < i + 1 + FORWARD_BARS {
      return None;
    }
    var entry, end := candles[i].close, i + 1 + FORWARD_BARS;
    var targetPrice, stopPrice := Target(entry), Stop(entry);
    var worst := 0.0;
    for j := i + 1 to end
      invariant worst == Dip(candles, entry, i + 1, j)
      invariant forall k :: i + 1 <= k < j ==>
                !Tracks.HitsStop(candles[k], stopPrice) && !Tracks.HitsTarget(candles[k], targetPrice)
    {
      worst := Min(worst, Change(candles[j].low, entry));
      if candles[j].low <= stopPrice {
        Tracks.FirstTouchIs(candles, stopPrice, targetPrice, i + 1, end, j);
        return Some(TradeOutcome(Tracks.Loss, -STOP_LOSS, worst));
      }
      if candles[j].high >= targetPrice {
        Tracks.FirstTouchIs(candles, stopPrice, targetPrice, i + 1, end, j);
        return Some(TradeOutcome(Tracks.Win, TARGET_RETURN, worst));
      }
    }
    Tracks.FirstTouchIs(candles, stopPrice, targetPrice, i + 1, end, end);
    return Some(TradeOutcome(Tracks.Timedout, Change(candles[end - 1].close, entry), worst));
  }

  // ---- the sample --------------------------------------------------------------------------

  /** Everything `compute_signal_stats` reads for one coin. */
  datatype Sample = Sample(candles: seq<Candle>, points: seq<Point>, regime: seq<(Time, Option<Label>)>) {
    ghost predicate Valid() {
      && NonDescending(Stamps(regime))
      && forall k :: 0 <= k < |candles| ==> candles[k].close != 0.0
    }

    /** Bar i signals, the regime is open, and its outcome is known. */
    predicate Eligible(i: nat) {
      && i < |points|
      && EntrySignal(candles, points, i)
      && LabelAsOf(regime, points[i].time).Some?
      && WindowFull(candles, i)
    }

    function TradeAt(i: nat): TradeOutcome
      requires Valid() && Eligible(i)
    {
      TradeSpec(candles, i).value
    }
  }

  /** The entries counted among the first n bars: each starts more than 24 bars after the last. */
  function Picks(s: Sample, n: nat): (picks: seq<nat>) {
    if n == 0 then [] else
    var picks := Picks(s, n - 1);
    if s.Eligible(n - 1) && (picks == [] || picks[|picks| - 1] + FORWARD_BARS < n - 1) then picks + [n - 1] else picks
  }

  function OutcomesOf(s: Sample, picks: seq<nat>): seq<TradeOutcome>
    requires s.Valid() && forall k :: 0 <= k < |picks| ==> s.Eligible(picks[k])
  {
    seq(|picks|, k requires 0 <= k < |picks| => s.TradeAt(picks[k]))
  }

  /** Picks are eligible bars, in order, more than 24 bars apart. */
  ghost predicate Spaced(picks: seq<nat>, n: nat) {
    && (forall k :: 0 <= k < |picks| ==> picks[k] < n)
    && (forall j, k :: 0 <= j < k < |picks| ==> picks[j] + FORWARD_BARS < picks[k])
  }

  lemma {:induction false} PicksAreSpaced(s: Sample, n: nat)
    ensures Spaced(Picks(s, n), n)
    ensures forall k :: 0 <= k < |Picks(s, n)| ==> s.Eligible(Picks(s, n)[k])
  {
    hide Sample.Eligible;
    if n > 0 {
      PicksAreSpaced(s, n - 1);
    }
  }

  // ---- greedy optimality ---------------------------------------------------------------------

  /** A set of eligible bars among the first n, pairwise more than 24 bars apart. */
  ghost predicate Independent(s: Sample, bars: set<nat>, n: nat) {
    && (forall i <- bars :: i < n && s.Eligible(i))
    && (forall i, j :: i in bars && j in bars && i < j ==> i + FORWARD_BARS < j)
  }

  function Before(bars: set<nat>, n: nat): set<nat> {
    set i <- bars | i < n
  }

  lemma {:induction false} PicksBelow(s: Sample, m: nat, n: nat)
    requires m <= n
    ensures Picks(s, m) <= Picks(s, n)
    ensures forall k :: |Picks(s, m)| <= k < |Picks(s, n)| ==> Picks(s, n)[k] >= m
  {
    hide Sample.Eligible;
    if m < n {
      PicksBelow(s, m, n - 1);
    }
  }

  /** No choice of non-overlapping eligible entries has more of them than the code counts. */
  lemma {:induction false} GreedyIsOptimal(s: Sample, bars: set<nat>, n: nat)
    requires Independent(s, bars, n)
    ensures |bars| <= |Picks(s, n)|
  {
    hide Sample.Eligible, Independent;
    if n == 0 {
      NoBars(s, bars);
    } else {
      var i := n - 1;
      var below := Before(bars, i);
      BelowIndependent(s, bars, i);
      if i in bars {
        assert bars == below + {i};
        var picks := Picks(s, i);
        if picks != [] && picks[|picks| - 1] + FORWARD_BARS >= i {
          // bar i is passed over: the last pick lies in the window before it, where `bars` has none
          PicksAreSpaced(s, i);
          var m := picks[|picks| - 1];
          WindowEmpty(s, bars, i, m);
          GreedyIsOptimal(s, below, m);
          PicksCutAt(s, m, i);
        } else {
          GreedyIsOptimal(s, below, i);
        }
      } else {
        assert bars == below;
        GreedyIsOptimal(s, bars, i);
      }
    }
  }

  lemma NoBars(s: Sample, bars: set<nat>)
    requires Independent(s, bars, 0)
    ensures bars == {}
  {
  }

  lemma BelowIndependent(s: Sample, bars: set<nat>, i: nat)
    requires Independent(s, bars, i + 1)
    ensures Independent(s, Before(bars, i), i)
    ensures bars == Before(bars, i) + if i in bars then {i} else {}
    ensures i in bars ==> s.Eligible(i)
  {
    hide Sample.Eligible;
  }

  /** The bars of an independent set before bar i of the set all lie more than 24 before it. */
  lemma WindowEmpty(s: Sample, bars: set<nat>, i: nat, m: nat)
    requires Independent(s, bars, i + 1) && i in bars && m < i <= m + FORWARD_BARS
    ensures Independent(s, Before(bars, i), m)
  {
    hide Sample.Eligible;
  }

  /** Cutting the log at its last pick removes at least that pick. */
  lemma PicksCutAt(s: Sample, m: nat, n: nat)
    requires m < n && m in Picks(s, n)
    ensures |Picks(s, m)| < |Picks(s, n)|
  {
    hide Sample.Eligible;
    PicksBelow(s, m, n);
    PicksAreSpaced(s, m);
    var k :| 0 <= k < |Picks(s, n)| && Picks(s, n)[k] == m;
    var fewer := Picks(s, m);
    assert forall j :: 0 <= j < |fewer| ==> Picks(s, n)[j] == fewer[j] && fewer[j] != m;
  }

  /** The sample size is the greatest size of any such set. */
  lemma SampleSizeIsMaximal(s: Sample, n: nat)
    ensures exists bars: set<nat> :: Independent(s, bars, n) && |bars| == |Picks(s, n)|
    ensures forall bars: set<nat> :: Independent(s, bars, n) ==> |bars| <= |Picks(s, n)|
  {
    hide Sample.Eligible, Picks;
    PicksAreSpaced(s, n);
    var picks := Picks(s, n);
    var bars := set k | 0 <= k < |picks| :: picks[k];
    SpacedSize(picks, n);
    assert Independent(s, bars, n);
    forall other: set<nat> | Independent(s, other, n)
      ensures |other| <= |picks|
    {
      GreedyIsOptimal(s, other, n);
    }
  }

  lemma {:induction false} SpacedSize(picks: seq<nat>, n: nat)
    requires Spaced(picks, n)
    ensures |set k | 0 <= k < |picks| :: picks[k]| == |picks|
  {
    if picks != [] {
      var front, last := picks[..|picks| - 1], picks[|picks| - 1];
      SpacedSize(front, n);
      var fewer := set k | 0 <= k < |front| :: front[k];
      assert last !in fewer;
      assert (set k | 0 <= k < |picks| :: picks[k]) == fewer + {last};
    }
  }

  // ---- statistics ----------------------------------------------------------------------------

  datatype SignalStats = SignalStats(
    n: nat,
    hitCount: nat,
    hitRate: Option<real>,
    hitRateLower: Option<real>,
    expectedReturn: Option<real>,
    maxDrawdown: Option<real>)

  function Wins(outcomes: seq<TradeOutcome>): (wins: nat)
    ensures wins <= |outcomes|
  {
    if outcomes == [] then 0
    else Wins(outcomes[..|outcomes| - 1]) + if outcomes[|outcomes| - 1].verdict == Tracks.Win then 1 else 0
  }

  function SumRet(outcomes: seq<TradeOutcome>): real {
    if outcomes == [] then 0.0 else SumRet(outcomes[..|outcomes| - 1]) + outcomes[|outcomes| - 1].ret
  }

  function Worst(outcomes: seq<TradeOutcome>): real
    requires outcomes != []
  {
    if |outcomes| == 1 then outcomes[0].drawdown
      else Min(Worst(outcomes[..|outcomes| - 1]), outcomes[|outcomes| - 1].drawdown)
  }

  /** The 95% lower confidence bound of a hit ratio. */
  function LowerBound(hits: nat, n: nat, sqrt: real -> real): real {
    WilsonLower(hits, n, Z95, if n == 0 then 0.0 else sqrt(Radicand(Ratio(hits, n), n as real, Z95)))
  }

  /** `aggregate_stats`; `sqrt` is the library square root. */
  function AggregateStats(outcomes: seq<TradeOutcome>, sqrt: real -> real): SignalStats {
    var n := |outcomes|;
    if n == 0 then SignalStats(0, 0, None, None, None, None) else
    var hits := Wins(outcomes);
    SignalStats(n, hits, Some(hits as real / n as real),
                Some(LowerBound(hits, n, sqrt)),
                Some(SumRet(outcomes) / n as real), Some(Worst(outcomes)))
  }

  /** The loop state after the first n bars. */
  ghost predicate Tallied(s: Sample, n: nat, results: seq<TradeOutcome>, lastExit: int)
    requires s.Valid()
  {
    var picks := Picks(s, n);
    && (forall k :: 0 <= k < |picks| ==> s.Eligible(picks[k]))
    && results == OutcomesOf(s, picks)
    && lastExit == if picks == [] then -1 else picks[|picks| - 1] + FORWARD_BARS
  }

  lemma TallyStep(s: Sample, i: nat, results: seq<TradeOutcome>, lastExit: int)
    requires s.Valid() && Tallied(s, i, results, lastExit)
    ensures s.Eligible(i) && lastExit < i ==> Tallied(s, i + 1, results + [s.TradeAt(i)], i + FORWARD_BARS)
    ensures !(s.Eligible(i) && lastExit < i) ==> Tallied(s, i + 1, results, lastExit)
  {
    hide Sample.Eligible, Sample.TradeAt;
    if s.Eligible(i) && lastExit < i {
      assert Picks(s, i + 1) == Picks(s, i) + [i];
      assert OutcomesOf(s, Picks(s, i) + [i]) == OutcomesOf(s, Picks(s, i)) + [s.TradeAt(i)];
    }
  }

  /** `compute_signal_stats`: one pass that skips bars inside the 24-bar window of the last entry. */
  method ComputeSignalStats(s: Sample, sqrt: real -> real) returns (stats: SignalStats)
    requires s.Valid()
    ensures (forall k :: 0 <= k < |Picks(s, |s.points|)| ==> s.Eligible(Picks(s, |s.points|)[k]))
            && stats == AggregateStats(OutcomesOf(s, Picks(s, |s.points|)), sqrt)
  {
    hide EntrySignal, TradeSpec, LabelAsOf, AggregateStats, WindowFull, Tallied;
    var results: seq<TradeOutcome> := [];
    var lastExit := -1;
    NothingTallied(s);
    for i := 0 to |s.points|
      invariant Tallied(s, i, results, lastExit)
    {
      TallyStep(s, i, results, lastExit);
      if i <= lastExit { continue; }
      if !EntrySignal(s.candles, s.points, i) { continue; }
      var regime := RegimeAsOf(s.regime, s.points[i].time);
      if regime.None? { continue; }
      SignalInRange(s, i);
      var outcome := SimulateTrade(s.candles, i);
      OutcomeKnown(s.candles, i);
      if outcome.None? { continue; }
      lastExit := i + FORWARD_BARS;
      results := results + [outcome.value];
    }
    AllTallied(s, results, lastExit);
    stats := AggregateStats(results, sqrt);
  }

  lemma NothingTallied(s: Sample)
    requires s.Valid()
    ensures Tallied(s, 0, [], -1)
  {
  }

  lemma AllTallied(s: Sample, results: seq<TradeOutcome>, lastExit: int)
    requires s.Valid() && Tallied(s, |s.points|, results, lastExit)
    ensures forall k :: 0 <= k < |Picks(s, |s.points|)| ==> s.Eligible(Picks(s, |s.points|)[k])
    ensures results == OutcomesOf(s, Picks(s, |s.points|))
  {
  }

  lemma SignalInRange(s: Sample, i: nat)
    requires EntrySignal(s.candles, s.points, i)
    ensures i < |s.candles|
  {
  }

  lemma OutcomeKnown(candles: seq<Candle>, i: nat)
    requires i < |candles| && (WindowFull(candles, i) ==> candles[i].close != 0.0)
    ensures TradeSpec(candles, i).Some? <==> WindowFull(candles, i)
  {
  }

  // ---- prefix stability ------------------------------------------------------------------------

  /** `later` is `s` after more bars; regime labels arrive with later closing instants. */
  ghost predicate Extends(s: Sample, later: Sample) {
    && |s.points| <= |s.candles|
    && s.candles <= later.candles && s.points <= later.points && s.regime <= later.regime
    && forall i, k :: 0 <= i < |s.points| && |s.regime| <= k < |later.regime| ==> s.points[i].time < later.regime[k].0
  }

  lemma {:induction false} SumVolumeStable(candles: seq<Candle>, more: seq<Candle>, from: nat, end: nat)
    requires from <= end <= |candles| && candles <= more
    ensures SumVolume(candles, from, end) == SumVolume(more, from, end)
    decreases end - from
  {
    if from < end {
      SumVolumeStable(candles, more, from, end - 1);
    }
  }

  lemma SignalStable(s: Sample, later: Sample, i: nat)
    requires Extends(s, later) && i < |s.points|
    ensures EntrySignal(s.candles, s.points, i) == EntrySignal(later.candles, later.points, i)
  {
    if i >= VOLUME_BARS {
      SumVolumeStable(s.candles, later.candles, i - VOLUME_BARS + 1, i + 1);
      assert forall k :: i - BREAKOUT_BARS <= k <= i ==> s.candles[k] == later.candles[k];
    }
  }

  lemma EligibleStable(s: Sample, later: Sample, i: nat)
    requires s.Valid() && later.Valid() && Extends(s, later) && i < |s.points|
    ensures s.Eligible(i) ==> later.Eligible(i)
    ensures later.Eligible(i) && !s.Eligible(i) ==> !WindowFull(s.candles, i)
  {
    hide EntrySignal, CountUpTo;
    SignalStable(s, later, i);
    assert Stamps(s.regime) <= Stamps(later.regime);
    CountUpToStable(Stamps(s.regime), Stamps(later.regime), s.points[i].time);
  }

  /** No look-ahead: more data never changes the old sample, it only continues it, and only with
      entries whose window was not full before. */
  lemma {:induction false} SampleStability(s: Sample, later: Sample, n: nat)
    requires s.Valid() && later.Valid() && Extends(s, later) && n <= |s.points|
    ensures Picks(s, n) <= Picks(later, n)
    ensures Picks(s, n) != Picks(later, n) ==> forall i :: n <= i < |s.points| ==> !s.Eligible(i)
    ensures forall k :: |Picks(s, n)| <= k < |Picks(later, n)| ==> !WindowFull(s.candles, Picks(later, n)[k])
  {
    hide Sample.Eligible;
    if n > 0 {
      SampleStability(s, later, n - 1);
      EligibleStable(s, later, n - 1);
      NoneAfterOpenWindow(s, n - 1);
    }
  }

  /** The same for the published sample: every old entry stays, in its place, and every other entry
      is on a new bar or on one whose window was not full. */
  lemma WholeSampleStability(s: Sample, later: Sample)
    requires s.Valid() && later.Valid() && Extends(s, later)
    ensures var before, after := Picks(s, |s.points|), Picks(later, |later.points|);
            && before <= after
            && forall k :: |before| <= k < |after| ==> after[k] >= |s.points| || !WindowFull(s.candles, after[k])
  {
    hide Sample.Eligible, Picks, WindowFull;
    SampleStability(s, later, |s.points|);
    PicksBelow(later, |s.points|, |later.points|);
    var middle, all := Picks(later, |s.points|), Picks(later, |later.points|);
    assert forall k :: 0 <= k < |middle| ==> all[k] == middle[k];
  }

  lemma NoneAfterOpenWindow(s: Sample, i: nat)
    ensures !WindowFull(s.candles, i) ==> forall j: nat :: i <= j ==> !s.Eligible(j)
  {
    hide EntrySignal, LabelAsOf;
  }
}
