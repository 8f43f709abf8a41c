/** What the regime track publishes, on the bars and their numbers alone (src/backtest.py): entries, the
    24-bar race of each pick, and the statistics over them. */
module SampleMeaning {
  import opened Domain
  import opened Regime
  import opened Backtest
  import Tracks

  // ---- the race ------------------------------------------------------------------------------

  /** The 24 bars after bar i are there, and none before bar j of them loses 2% or gains 3%. */
  ghost predicate Quiet(candles: seq<Candle>, i: nat, j: nat) {
    && i < j <= i + 25 && i + 24 < |candles|
    && forall q :: i < q < j ==> candles[i].close * 0.98 < candles[q].low && candles[q].high < candles[i].close * 1.03
  }

  /** Bar j ends the position at a loss: the first to touch either price, and it touches the stop. */
  ghost predicate LosesOn(candles: seq<Candle>, i: nat, j: nat) {
    Quiet(candles, i, j) && j <= i + 24 && candles[j].low <= candles[i].close * 0.98
  }

  /** Bar j ends it at a win: the first to touch, it reaches the target and not the stop. */
  ghost predicate WinsOn(candles: seq<Candle>, i: nat, j: nat) {
    && Quiet(candles, i, j) && j <= i + 24
    && candles[i].close * 0.98 < candles[j].low && candles[i].close * 1.03 <= candles[j].high
  }

  ghost predicate Won(candles: seq<Candle>, i: nat) { exists j :: WinsOn(candles, i, j) }
  ghost predicate Lost(candles: seq<Candle>, i: nat) { exists j :: LosesOn(candles, i, j) }
  ghost predicate RanOut(candles: seq<Candle>, i: nat) { Quiet(candles, i, i + 25) }

  /** The position's last bar. */
  ghost predicate LeavesOn(candles: seq<Candle>, i: nat, j: nat) {
    LosesOn(candles, i, j) || WinsOn(candles, i, j) || (RanOut(candles, i) && j == i + 24)
  }

  /** A position ends in one way, on one bar. */
  lemma EndsOnce(candles: seq<Candle>, i: nat, j: nat, k: nat)
    requires LeavesOn(candles, i, j) && LeavesOn(candles, i, k)
    ensures j == k
    ensures LosesOn(candles, i, j) ==> !WinsOn(candles, i, k) && !RanOut(candles, i)
    ensures WinsOn(candles, i, j) ==> !LosesOn(candles, i, k) && !RanOut(candles, i)
  {
  }

  /** The deepest of zero and the dips of bars i+1 to j. */
  ghost predicate Deepest(candles: seq<Candle>, i: nat, j: nat, worst: real)
    requires i < |candles| && candles[i].close != 0.0
  {
    var entry := candles[i].close;
    && j < |candles| && worst <= 0.0
    && (forall q :: i < q <= j ==> worst <= (candles[q].low - entry) / entry)
    && (worst == 0.0 || exists q :: i < q <= j && worst == (candles[q].low - entry) / entry)
  }

  lemma {:induction false} DipIsDeepest(candles: seq<Candle>, i: nat, j: nat)
    requires i <= j < |candles| && candles[i].close != 0.0
    ensures Deepest(candles, i, j, Backtest.Dip(candles, candles[i].close, i + 1, j + 1))
    decreases j - i
  {
    hide Change;
    if i < j {
      DipIsDeepest(candles, i, j - 1);
      ChangeIs(candles[j].low, candles[i].close);
    }
  }

  lemma ChangeIs(price: real, entry: real)
    requires entry != 0.0
    ensures Change(price, entry) == (price - entry) / entry
  {
  }

  /** What one pick records. */
  lemma OutcomeMeans(candles: seq<Candle>, i: nat) returns (j: nat)
    requires WindowFull(candles, i) && candles[i].close != 0.0
    ensures LeavesOn(candles, i, j) && Deepest(candles, i, j, TradeSpec(candles, i).value.drawdown)
    ensures match TradeSpec(candles, i).value.verdict
            case Loss => LosesOn(candles, i, j) && TradeSpec(candles, i).value.ret == -0.02
            case Win => WinsOn(candles, i, j) && TradeSpec(candles, i).value.ret == 0.03
            case Timedout =>
              RanOut(candles, i)
              && TradeSpec(candles, i).value.ret == (candles[i + 24].close - candles[i].close) / candles[i].close
  {
    hide Backtest.Dip, Change, Deepest;
    var entry, end := candles[i].close, i + 25;
    var touch := Tracks.FirstTouch(candles, Stop(entry), Target(entry), i + 1, end);
    assert Stop(entry) == entry * 0.98 && Target(entry) == entry * 1.03;
    j := if touch == end then i + 24 else touch;
    ChangeIs(candles[i + 24].close, entry);
    DipIsDeepest(candles, i, j);
  }

  // ---- the statistics ------------------------------------------------------------------------

  ghost function WonPicks(candles: seq<Candle>, picks: seq<nat>): set<nat> {
    set k | 0 <= k < |picks| && Won(candles, picks[k])
  }

  ghost function LostPicks(candles: seq<Candle>, picks: seq<nat>): set<nat> {
    set k | 0 <= k < |picks| && Lost(candles, picks[k])
  }

  ghost function RanOutPicks(candles: seq<Candle>, picks: seq<nat>): set<nat> {
    set k | 0 <= k < |picks| && RanOut(candles, picks[k])
  }

  /** The returns of the positions that ran out. */
  ghost function TimeoutReturns(candles: seq<Candle>, picks: seq<nat>): real {
    if picks == [] then 0.0
    else
      var i := picks[|picks| - 1];
      TimeoutReturns(candles, picks[..|picks| - 1])
      + if RanOut(candles, i) && candles[i].close != 0.0 then LastReturn(candles, i) else 0.0
  }

  /** From the entry to the close of the last of the 24 bars. */
  function LastReturn(candles: seq<Candle>, i: nat): real
    requires i + 24 < |candles| && candles[i].close != 0.0
  {
    (candles[i + 24].close - candles[i].close) / candles[i].close
  }

  ghost predicate Judged(s: Sample, picks: seq<nat>) {
    s.Valid() && forall k :: 0 <= k < |picks| ==> s.Eligible(picks[k])
  }

  /** How one more pick changes the three groups. */
  lemma GroupsGrow(candles: seq<Candle>, picks: seq<nat>)
    requires picks != []
    ensures var front, n := picks[..|picks| - 1], |picks| - 1;
            && WonPicks(candles, picks) == WonPicks(candles, front) + (if Won(candles, picks[n]) then {n} else {})
            && LostPicks(candles, picks) == LostPicks(candles, front) + (if Lost(candles, picks[n]) then {n} else {})
            && RanOutPicks(candles, picks) == RanOutPicks(candles, front)
              + (if RanOut(candles, picks[n]) then {n} else {})
            && n !in WonPicks(candles, front) && n !in LostPicks(candles, front) && n !in RanOutPicks(candles, front)
  {
    hide Won, Lost, RanOut;
  }

  lemma OneGroup(s: Sample, i: nat)
    requires s.Valid() && s.Eligible(i)
    ensures var t, c := s.TradeAt(i), s.candles;
            && i + 24 < |c| && c[i].close != 0.0
            && (Won(c, i) <==> t.verdict == Tracks.Win) && (Lost(c, i) <==> t.verdict == Tracks.Loss)
            && (RanOut(c, i) <==> t.verdict == Tracks.Timedout)
            && t.ret == (if Won(c, i) then 0.03 else if Lost(c, i) then -0.02 else LastReturn(c, i))
  {
    hide EntrySignal, LabelAsOf, WinsOn, LosesOn, RanOut, Deepest, TradeSpec;
    var c := s.candles;
    var j := OutcomeMeans(c, i);
    forall k | WinsOn(c, i, k) || LosesOn(c, i, k) || (RanOut(c, i) && k == i + 24)
      ensures WinsOn(c, i, k) ==> s.TradeAt(i).verdict == Tracks.Win
      ensures LosesOn(c, i, k) ==> s.TradeAt(i).verdict == Tracks.Loss
      ensures RanOut(c, i) ==> s.TradeAt(i).verdict == Tracks.Timedout
    {
      EndsOnce(c, i, j, k);
      EndsOnce(c, i, k, j);
    }
    if RanOut(c, i) {
      EndsOnce(c, i, j, i + 24);
    }
  }

  /** Hits, losses and timeouts partition the picks, and the returns are what each group pays. */
  ghost predicate Counted(candles: seq<Candle>, picks: seq<nat>, outcomes: seq<TradeOutcome>) {
    var hits, losses := |WonPicks(candles, picks)|, |LostPicks(candles, picks)|;
    && Wins(outcomes) == hits
    && |picks| == hits + losses + |RanOutPicks(candles, picks)|
    && SumRet(outcomes) == Paid(hits, losses) + TimeoutReturns(candles, picks)
  }

  /** 3% for every hit and -2% for every loss. */
  function Paid(hits: nat, losses: nat): (sum: real)
    ensures sum == 0.03 * hits as real - 0.02 * losses as real
  {
    0.03 * hits as real - 0.02 * losses as real
  }

  lemma PaidGrows(hits: nat, losses: nat)
    ensures Paid(hits + 1, losses) == Paid(hits, losses) + 0.03
    ensures Paid(hits, losses + 1) == Paid(hits, losses) - 0.02
  {
  }

  lemma {:induction false} CountsAre(s: Sample, picks: seq<nat>)
    requires Judged(s, picks)
    ensures Counted(s.candles, picks, OutcomesOf(s, picks))
  {
    hide Sample.Eligible, Sample.TradeAt, Won, Lost, RanOut, WonPicks, LostPicks, RanOutPicks, Counted, Paid;
    if picks == [] {
      NoneCounted(s.candles);
      assert OutcomesOf(s, picks) == [];
    } else {
      var front, last := picks[..|picks| - 1], picks[|picks| - 1];
      CountsAre(s, front);
      assert OutcomesOf(s, picks) == OutcomesOf(s, front) + [s.TradeAt(last)];
      CountStep(s, picks, OutcomesOf(s, front));
    }
  }

  lemma NoneCounted(candles: seq<Candle>)
    ensures Counted(candles, [], [])
  {
    hide Won, Lost, RanOut;
    NoGroups(candles);
  }

  lemma CountStep(s: Sample, picks: seq<nat>, outcomes: seq<TradeOutcome>)
    requires picks != [] && s.Valid() && s.Eligible(picks[|picks| - 1])
    requires Counted(s.candles, picks[..|picks| - 1], outcomes)
    ensures Counted(s.candles, picks, outcomes + [s.TradeAt(picks[|picks| - 1])])
  {
    hide Sample.Eligible, Sample.TradeAt, Won, Lost, RanOut, WonPicks, LostPicks, RanOutPicks, Paid;
    hide Wins, SumRet, TimeoutReturns, LastReturn;
    var c, front, last := s.candles, picks[..|picks| - 1], picks[|picks| - 1];
    SizesGrow(c, picks);
    OneGroup(s, last);
    PaidGrows(|WonPicks(c, front)|, |LostPicks(c, front)|);
    TimeoutsGrow(c, picks);
    OneMore(outcomes, s.TradeAt(last));
  }

  lemma SizesGrow(candles: seq<Candle>, picks: seq<nat>)
    requires picks != []
    ensures var front, last := picks[..|picks| - 1], picks[|picks| - 1];
            && |WonPicks(candles, picks)| == |WonPicks(candles, front)| + (if Won(candles, last) then 1 else 0)
            && |LostPicks(candles, picks)| == |LostPicks(candles, front)| + (if Lost(candles, last) then 1 else 0)
            && |RanOutPicks(candles, picks)| == |RanOutPicks(candles, front)| + (if RanOut(candles, last) then 1 else 0)
  {
    hide Won, Lost, RanOut, WonPicks, LostPicks, RanOutPicks;
    GroupsGrow(candles, picks);
  }

  lemma OneMore(outcomes: seq<TradeOutcome>, t: TradeOutcome)
    ensures Wins(outcomes + [t]) == Wins(outcomes) + if t.verdict == Tracks.Win then 1 else 0
    ensures SumRet(outcomes + [t]) == SumRet(outcomes) + t.ret
  {
    assert (outcomes + [t])[..|outcomes|] == outcomes;
  }

  lemma TimeoutsGrow(candles: seq<Candle>, picks: seq<nat>)
    requires picks != []
    ensures var i := picks[|picks| - 1];
            TimeoutReturns(candles, picks) == TimeoutReturns(candles, picks[..|picks| - 1])
              + if RanOut(candles, i) && candles[i].close != 0.0 then LastReturn(candles, i) else 0.0
  {
  }

  lemma NoGroups(candles: seq<Candle>)
    ensures WonPicks(candles, []) == {} && LostPicks(candles, []) == {} && RanOutPicks(candles, []) == {}
  {
  }

  lemma {:induction false} WorstIsLeast(outcomes: seq<TradeOutcome>)
    requires outcomes != []
    ensures forall k :: 0 <= k < |outcomes| ==> Worst(outcomes) <= outcomes[k].drawdown
    ensures exists k :: 0 <= k < |outcomes| && Worst(outcomes) == outcomes[k].drawdown
  {
    if |outcomes| == 1 {
      assert Worst(outcomes) == outcomes[0].drawdown;
    } else {
      var front := outcomes[..|outcomes| - 1];
      WorstIsLeast(front);
      var k :| 0 <= k < |front| && Worst(front) == front[k].drawdown;
      assert Worst(outcomes) == outcomes[k].drawdown || Worst(outcomes) == outcomes[|front|].drawdown;
    }
  }

  /** Bar q is one of the bars on which the position entered at bar i is held, `dip` below the entry. */
  ghost predicate DipsOn(candles: seq<Candle>, i: nat, q: nat, dip: real) {
    && i < q < |candles| && candles[i].close != 0.0
    && dip == (candles[q].low - candles[i].close) / candles[i].close
    && exists j: nat :: LeavesOn(candles, i, j) && q <= j
  }

  /** No pick dips deeper up to its exit, and one dips as deep, or none dips. */
  ghost predicate DeepestOf(candles: seq<Candle>, picks: seq<nat>, worst: real) {
    && worst <= 0.0
    && (forall k, q, dip :: 0 <= k < |picks| && DipsOn(candles, picks[k], q, dip) ==> worst <= dip)
    && (worst == 0.0 || exists k, q :: 0 <= k < |picks| && DipsOn(candles, picks[k], q, worst))
  }

  lemma PickDips(s: Sample, i: nat)
    requires s.Valid() && s.Eligible(i)
    ensures DeepestOf(s.candles, [i], s.TradeAt(i).drawdown)
  {
    hide EntrySignal, LabelAsOf, LeavesOn, TradeSpec;
    var exit := OutcomeMeans(s.candles, i);
    forall j: nat | LeavesOn(s.candles, i, j)
      ensures j == exit
    {
      EndsOnce(s.candles, i, j, exit);
    }
    var worst := s.TradeAt(i).drawdown;
    assert Deepest(s.candles, i, exit, worst);
    if worst != 0.0 {
      var q: nat :| i < q <= exit && worst == (s.candles[q].low - s.candles[i].close) / s.candles[i].close;
      assert DipsOn(s.candles, [i][0], q, worst);
    }
  }

  lemma WorstIsDeepest(s: Sample, picks: seq<nat>)
    requires Judged(s, picks) && picks != []
    ensures DeepestOf(s.candles, picks, Worst(OutcomesOf(s, picks)))
  {
    hide Sample.Eligible, Sample.TradeAt, DipsOn, Worst;
    var outcomes := OutcomesOf(s, picks);
    var worst := Worst(outcomes);
    WorstIsLeast(outcomes);
    forall k, q, dip | 0 <= k < |picks| && DipsOn(s.candles, picks[k], q, dip)
      ensures worst <= dip
    {
      PickDips(s, picks[k]);
      assert outcomes[k].drawdown <= dip by {
        assert DipsOn(s.candles, [picks[k]][0], q, dip);
      }
    }
    var k :| 0 <= k < |outcomes| && worst == outcomes[k].drawdown;
    PickDips(s, picks[k]);
  }

  /** Statistics that say of the picks what became of them. */
  ghost predicate StatsAre(candles: seq<Candle>, picks: seq<nat>, stats: SignalStats) {
    var hits, losses := |WonPicks(candles, picks)|, |LostPicks(candles, picks)|;
    && stats.n == |picks| == hits + losses + |RanOutPicks(candles, picks)|
    && stats.hitCount == hits
    && (picks == [] ==> stats.hitRate.None? && stats.expectedReturn.None? && stats.maxDrawdown.None?)
    && (picks != [] ==>
          && stats.hitRate == Some(hits as real / |picks| as real)
          && stats.expectedReturn == Some((0.03 * hits as real - 0.02 * losses as real
                                           + TimeoutReturns(candles, picks)) / |picks| as real)
          && stats.maxDrawdown.Some? && DeepestOf(candles, picks, stats.maxDrawdown.value))
  }

  /** The published statistics of the sample. */
  lemma PublishedMeans(s: Sample, sqrt: real -> real)
    requires s.Valid()
    ensures var picks := Picks(s, |s.points|);
            Judged(s, picks) && StatsAre(s.candles, picks, AggregateStats(OutcomesOf(s, picks), sqrt))
  {
    hide Sample.Eligible, Picks, WonPicks, LostPicks, RanOutPicks, DeepestOf, LowerBound, OutcomesOf, Wins, SumRet,
      Worst;
    PicksAreSpaced(s, |s.points|);
    var picks := Picks(s, |s.points|);
    CountsAre(s, picks);
    OutcomeForEach(s, picks);
    if picks != [] {
      WorstIsDeepest(s, picks);
    }
  }

  lemma OutcomeForEach(s: Sample, picks: seq<nat>)
    requires Judged(s, picks)
    ensures |OutcomesOf(s, picks)| == |picks|
  {
  }

  // ---- entries -------------------------------------------------------------------------------

  function Volumes(candles: seq<Candle>): (volumes: seq<real>)
    ensures |volumes| == |candles|
  {
    seq(|candles|, k requires 0 <= k < |candles| => candles[k].volume)
  }

  /** Bar i is an entry: above both spans, the tenkan over a kijun that rose in six bars, a close over
      each of the last four highs, and twelve times its volume above that of the last 24 bars, which
      is not nothing. */
  ghost predicate Breaks(candles: seq<Candle>, points: seq<Point>, i: nat) {
    && 24 <= i < |points| && i < |candles|
    && points[i].tenkan.Some? && points[i].kijun.Some? && points[i].senkouA.Some? && points[i].senkouB.Some?
    && points[i - 6].kijun.Some?
    && points[i].senkouA.value < points[i].close && points[i].senkouB.value < points[i].close
    && points[i].kijun.value < points[i].tenkan.value && points[i - 6].kijun.value < points[i].kijun.value
    && candles[i - 1].high < candles[i].close && candles[i - 2].high < candles[i].close
    && candles[i - 3].high < candles[i].close && candles[i - 4].high < candles[i].close
    && 0.0 < Sum(Volumes(candles), i - 23, i + 1) < 12.0 * candles[i].volume
  }

  lemma {:induction false} VolumesSum(candles: seq<Candle>, from: nat, end: nat)
    requires from <= end <= |candles|
    ensures SumVolume(candles, from, end) == Sum(Volumes(candles), from, end)
    decreases end - from
  {
    if from < end {
      VolumesSum(candles, from, end - 1);
    }
  }

  lemma EntriesAre(candles: seq<Candle>, points: seq<Point>, i: nat)
    ensures EntrySignal(candles, points, i) <==> Breaks(candles, points, i)
  {
    if 24 <= i < |candles| {
      VolumesSum(candles, i - 23, i + 1);
    }
    hide SumVolume, Sum;
  }

  /** Bar i may be counted: an entry, a labelled bitcoin bar is the last one closed by then, and all
      24 bars after it are there. */
  ghost predicate Countable(s: Sample, i: nat) {
    && Breaks(s.candles, s.points, i) && i + 24 < |s.candles|
    && exists k :: OpensAt(s.regime, s.points[i].time, k)
  }

  lemma EligibleMeans(s: Sample, i: nat)
    requires s.Valid()
    ensures s.Eligible(i) <==> Countable(s, i)
  {
    hide EntrySignal, LabelAsOf, OpensAt;
    EntriesAre(s.candles, s.points, i);
    if i < |s.points| {
      OpenIff(s.regime, s.points[i].time);
    }
  }

  /** A bar is picked exactly when it may be counted and none of the 24 bars before it is picked. */
  lemma PickedIff(s: Sample, n: nat, m: nat)
    requires s.Valid() && m < n
    ensures m in Picks(s, n) <==> Countable(s, m) && forall p :: p in Picks(s, n) && p < m ==> p + 24 < m
  {
    hide Sample.Eligible, Countable, Picks;
    EligibleMeans(s, m);
    PicksBefore(s, n, m);
    PicksBefore(s, n, m + 1);
    PicksAreSpaced(s, m);
    PickedNext(s, m);
  }

  lemma PickedNext(s: Sample, m: nat)
    requires s.Valid()
    ensures m in Picks(s, m + 1) <==> s.Eligible(m) && forall p :: p in Picks(s, m) ==> p + 24 < m
  {
    hide Sample.Eligible;
    PicksAreSpaced(s, m);
    var picks := Picks(s, m);
    if picks != [] {
      assert picks[|picks| - 1] in picks;
    }
  }

  /** The picks among the first m bars are those below m. */
  lemma PicksBefore(s: Sample, n: nat, m: nat)
    requires m <= n
    ensures forall p :: p in Picks(s, m) <==> p in Picks(s, n) && p < m
  {
    hide Sample.Eligible, Picks;
    PicksBelow(s, m, n);
    PicksAreSpaced(s, m);
    var some, all := Picks(s, m), Picks(s, n);
    assert forall k :: 0 <= k < |some| ==> all[k] == some[k];
  }
}
