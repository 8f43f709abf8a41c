/** Bitcoin's regime series (src/backtest.py): the prefix-sum implementation against the direct
    definition with the naive 200-day mean. */
module Regime {
  import opened Domain

  const REGIME_BARS_30D: nat := 180
  const REGIME_MA_BARS: nat := 1200
  const STRONG_BULL_30D := 0.20
  const REBOUND_OFF_LOW := 0.10

  datatype Label = StrongBull | Rebound

  function Closes(candles: seq<Candle>): (closes: seq<real>)
    ensures |closes| == |candles|
  {
    seq(|candles|, k requires 0 <= k < |candles| => candles[k].close)
  }

  // ---- direct definition -------------------------------------------------------------------

  function Sum(values: seq<real>, from: nat, end: nat): real
    requires from <= end <= |values|
    decreases end - from
  {
    if from == end then 0.0 else Sum(values, from, end - 1) + values[end - 1]
  }

  function Least(values: seq<real>, from: nat, end: nat): (least: real)
    requires from < end <= |values|
    ensures (forall k :: from <= k < end ==> values[k] != 0.0) ==> least != 0.0
    decreases end - from
  {
    if from + 1 == end then values[from] else Min(Least(values, from, end - 1), values[end - 1])
  }

  /** No bar of the window closed at zero; the code divides by them. */
  ghost predicate Divisible(closes: seq<real>) {
    |closes| > REGIME_BARS_30D ==> forall k :: 0 <= k < |closes| ==> closes[k] != 0.0
  }

  /** Mean of the last 1200 closes up to bar i. */
  function NaiveMean(closes: seq<real>, i: nat): real
    requires REGIME_MA_BARS <= i < |closes|
  {
    Sum(closes, i + 1 - REGIME_MA_BARS, i + 1) / REGIME_MA_BARS as real
  }

  /** The label of bar i, told from closes 0..i only. */
  function LabelAt(closes: seq<real>, i: nat): Option<Label>
    requires i < |closes| && Divisible(closes)
  {
    if i < REGIME_BARS_30D then None else
    var month := closes[i] / closes[i - REGIME_BARS_30D] - 1.0;
    var offLow := closes[i] / Least(closes, i - REGIME_BARS_30D + 1, i + 1) - 1.0;
    if month > STRONG_BULL_30D then Some(StrongBull)
    else if month <= 0.0 && offLow > REBOUND_OFF_LOW && REGIME_MA_BARS <= i && closes[i] > NaiveMean(closes, i)
      then Some(Rebound)
    else None
  }

  /** Every bar's label, stamped with the instant the bar closes. */
  function SeriesOf(candles: seq<Candle>): seq<(Time, Option<Label>)>
    requires Divisible(Closes(candles))
  {
    seq(|candles|, i requires 0 <= i < |candles| => (CloseTime(candles[i]), LabelAt(Closes(candles), i)))
  }

  // ---- prefix sums -------------------------------------------------------------------------

  ghost predicate PrefixSums(closes: seq<real>, prefix: seq<real>) {
    |prefix| == |closes| + 1 && forall k :: 0 <= k <= |closes| ==> prefix[k] == Sum(closes, 0, k)
  }

  lemma {:induction false} SumSplits(values: seq<real>, from: nat, mid: nat, end: nat)
    requires from <= mid <= end <= |values|
    ensures Sum(values, from, end) == Sum(values, from, mid) + Sum(values, mid, end)
    decreases end - mid
  {
    if mid < end {
      SumSplits(values, from, mid, end - 1);
    }
  }

  /** `_above_long_term_trend`: two prefix sums instead of 1200 additions. */
  predicate AboveLongTermTrend(closes: seq<real>, prefix: seq<real>, i: nat)
    requires i < |closes| && |prefix| == |closes| + 1
  {
    i >= REGIME_MA_BARS && closes[i] > (prefix[i + 1] - prefix[i + 1 - REGIME_MA_BARS]) / REGIME_MA_BARS as real
  }

  lemma TrendIsNaiveMean(closes: seq<real>, prefix: seq<real>, i: nat)
    requires i < |closes| && PrefixSums(closes, prefix)
    ensures AboveLongTermTrend(closes, prefix, i) <==> i >= REGIME_MA_BARS && closes[i] > NaiveMean(closes, i)
  {
    if i >= REGIME_MA_BARS {
      SumSplits(closes, 0, i + 1 - REGIME_MA_BARS, i + 1);
    }
  }

  /** The loop body of `build_regime_series`: the label as the code computes it. */
  function LabelByPrefix(closes: seq<real>, prefix: seq<real>, i: nat): Option<Label>
    requires i < |closes| && Divisible(closes) && |prefix| == |closes| + 1
  {
    if i < REGIME_BARS_30D then None else
    var month := closes[i] / closes[i - REGIME_BARS_30D] - 1.0;
    var offLow := closes[i] / Least(closes, i - REGIME_BARS_30D + 1, i + 1) - 1.0;
    if month > STRONG_BULL_30D then Some(StrongBull)
    else if month <= 0.0 && offLow > REBOUND_OFF_LOW && AboveLongTermTrend(closes, prefix, i) then Some(Rebound)
    else None
  }

  lemma LabelByPrefixIs(closes: seq<real>, prefix: seq<real>, i: nat)
    requires i < |closes| && Divisible(closes) && PrefixSums(closes, prefix)
    ensures LabelByPrefix(closes, prefix, i) == LabelAt(closes, i)
  {
    hide AboveLongTermTrend, NaiveMean, Least, Sum;
    TrendIsNaiveMean(closes, prefix, i);
  }

  // ---- what a label says ---------------------------------------------------------------------

  /** The window's least close: none is lower, and one is as low. */
  lemma {:induction false} LeastIs(values: seq<real>, from: nat, end: nat)
    requires from < end <= |values|
    ensures forall k :: from <= k < end ==> Least(values, from, end) <= values[k]
    ensures exists k :: from <= k < end && Least(values, from, end) == values[k]
    decreases end - from
  {
    if from + 1 == end {
      assert Least(values, from, end) == values[from];
    } else {
      LeastIs(values, from, end - 1);
      var k :| from <= k < end - 1 && Least(values, from, end - 1) == values[k];
      assert Least(values, from, end) == values[k] || Least(values, from, end) == values[end - 1];
    }
  }

  /** More than 20% above the close of 30 days before. */
  ghost predicate IsStrong(closes: seq<real>, i: nat) {
    180 <= i < |closes| && closes[i] > 1.2 * closes[i - 180]
  }

  /** Not above the close of 30 days before, more than 10% above some close since then, and above the
      mean of the last 1200 closes, which must all be there. */
  ghost predicate IsRebound(closes: seq<real>, i: nat) {
    && 1200 <= i < |closes|
    && closes[i] <= closes[i - 180]
    && (exists k: int :: i - 180 < k <= i && 1.1 * closes[k] < closes[i])
    && 1200.0 * closes[i] > Sum(closes, i - 1199, i + 1)
  }

  ghost predicate AllPositive(closes: seq<real>) {
    forall k :: 0 <= k < |closes| ==> closes[k] > 0.0
  }

  lemma QuotientAbove(x: real, y: real, rise: real)
    requires y > 0.0
    ensures x / y - 1.0 > rise <==> x > (1.0 + rise) * y
  {
    var above := x / y - (1.0 + rise);
    assert above * y == x - (1.0 + rise) * y;
    if above > 0.0 {
      assert above * y > 0.0;
    } else {
      assert above * y <= 0.0;
    }
  }

  lemma LabelMeans(closes: seq<real>, i: nat)
    requires i < |closes| && AllPositive(closes)
    ensures LabelAt(closes, i) == if IsStrong(closes, i) then Some(StrongBull)
                                  else if IsRebound(closes, i) then Some(Rebound) else None
  {
    hide Sum, Least;
    if i >= REGIME_BARS_30D {
      var from := i - REGIME_BARS_30D + 1;
      var least := Least(closes, from, i + 1);
      LeastIs(closes, from, i + 1);
      var k :| from <= k < i + 1 && least == closes[k];
      QuotientAbove(closes[i], closes[i - REGIME_BARS_30D], STRONG_BULL_30D);
      QuotientAbove(closes[i], closes[i - REGIME_BARS_30D], 0.0);
      QuotientAbove(closes[i], least, REBOUND_OFF_LOW);
    }
  }

  /** `build_regime_series`: every bar's label, stamped with the instant the bar closes. */
  method BuildRegimeSeries(candles: seq<Candle>) returns (series: seq<(Time, Option<Label>)>)
    requires Divisible(Closes(candles))
    ensures series == SeriesOf(candles)
    ensures var closes := Closes(candles);
            AllPositive(closes) ==>
              forall i :: 0 <= i < |candles| ==>
                series[i] == (CloseTime(candles[i]),
                              if IsStrong(closes, i) then Some(StrongBull)
                              else if IsRebound(closes, i) then Some(Rebound) else None)
  {
    hide LabelAt, LabelByPrefix, IsStrong, IsRebound, AllPositive;
    var closes := Closes(candles);
    var prefix := [0.0];
    for k := 0 to |closes|
      invariant |prefix| == k + 1 && forall j :: 0 <= j <= k ==> prefix[j] == Sum(closes, 0, j)
    {
      prefix := prefix + [prefix[|prefix| - 1] + closes[k]];
    }
    series := [];
    for i := 0 to |candles|
      invariant |series| == i
      invariant forall j :: 0 <= j < i ==> series[j] == (CloseTime(candles[j]), LabelAt(closes, j))
    {
      LabelByPrefixIs(closes, prefix, i);
      series := series + [(CloseTime(candles[i]), LabelByPrefix(closes, prefix, i))];
    }
    if AllPositive(closes) {
      forall i | 0 <= i < |candles|
        ensures LabelAt(closes, i) == if IsStrong(closes, i) then Some(StrongBull)
                                      else if IsRebound(closes, i) then Some(Rebound) else None
      {
        LabelMeans(closes, i);
      }
    }
  }

  // ---- look-up -----------------------------------------------------------------------------

  function Stamps(series: seq<(Time, Option<Label>)>): (times: seq<Time>)
    ensures |times| == |series|
    ensures forall k :: 0 <= k < |series| ==> times[k] == series[k].0
  {
    seq(|series|, k requires 0 <= k < |series| => series[k].0)
  }

  /** The label of the last bar closed at or before `moment`. */
  function LabelAsOf(series: seq<(Time, Option<Label>)>, moment: Time): Option<Label> {
    var count := CountUpTo(Stamps(series), moment);
    if count == 0 then None else series[count - 1].1
  }

  /** Stamp k is the last one at or before the moment, and its bar has a label. */
  ghost predicate OpensAt(series: seq<(Time, Option<Label>)>, moment: Time, k: nat) {
    && k < |series| && series[k].0 <= moment && series[k].1.Some?
    && forall j :: k < j < |series| ==> moment < series[j].0
  }

  lemma OpenIff(series: seq<(Time, Option<Label>)>, moment: Time)
    requires NonDescending(Stamps(series))
    ensures LabelAsOf(series, moment).Some? <==> exists k :: OpensAt(series, moment, k)
  {
    hide CountUpTo;
    var times := Stamps(series);
    var count := CountUpTo(times, moment);
    CountUpToIs(times, moment, count);
    if LabelAsOf(series, moment).Some? {
      assert OpensAt(series, moment, count - 1);
    }
    if k: nat :| OpensAt(series, moment, k) {
      CountUpToIs(times, moment, k + 1);
    }
  }

  /** `regime_as_of`: a linear scan with early exit agrees with the binary search. */
  method RegimeAsOf(series: seq<(Time, Option<Label>)>, moment: Time) returns (current: Option<Label>)
    requires NonDescending(Stamps(series))
    ensures current == LabelAsOf(series, moment)
  {
    hide CountUpTo;
    current := None;
    for k := 0 to |series|
      invariant forall j :: 0 <= j < k ==> Stamps(series)[j] <= moment
      invariant current == if k == 0 then None else series[k - 1].1
    {
      if series[k].0 > moment {
        assert forall j :: k <= j < |series| ==> Stamps(series)[k] <= Stamps(series)[j];
        CountUpToIs(Stamps(series), moment, k);
        return;
      }
      current := series[k].1;
    }
    CountUpToIs(Stamps(series), moment, |series|);
  }

  // ---- no look-ahead -----------------------------------------------------------------------

  lemma {:induction false} SumOfPrefix(values: seq<real>, more: seq<real>, from: nat, end: nat)
    requires from <= end <= |values| && values <= more
    ensures Sum(values, from, end) == Sum(more, from, end)
    decreases end - from
  {
    if from < end {
      SumOfPrefix(values, more, from, end - 1);
    }
  }

  lemma {:induction false} LeastOfPrefix(values: seq<real>, more: seq<real>, from: nat, end: nat)
    requires from < end <= |values| && values <= more
    ensures Least(values, from, end) == Least(more, from, end)
    decreases end - from
  {
    if from + 1 < end {
      LeastOfPrefix(values, more, from, end - 1);
    }
  }

  /** A bar's label depends on no later bar. */
  lemma LabelStable(closes: seq<real>, more: seq<real>, i: nat)
    requires i < |closes| && closes <= more && Divisible(closes) && Divisible(more)
    ensures LabelAt(closes, i) == LabelAt(more, i)
  {
    if i >= REGIME_BARS_30D {
      LeastOfPrefix(closes, more, i - REGIME_BARS_30D + 1, i + 1);
    }
    if i >= REGIME_MA_BARS {
      SumOfPrefix(closes, more, i + 1 - REGIME_MA_BARS, i + 1);
    }
  }

  /** The label known at `moment` is the same however many later bars have been printed since. */
  lemma NoLookAhead(candles: seq<Candle>, more: seq<Candle>, moment: Time)
    requires candles <= more && Divisible(Closes(candles)) && Divisible(Closes(more))
    requires NonDescending(CloseTimes(more))
    requires forall k :: |candles| <= k < |more| ==> moment < CloseTime(more[k])
    ensures SeriesOf(candles) <= SeriesOf(more)
    ensures LabelAsOf(SeriesOf(candles), moment) == LabelAsOf(SeriesOf(more), moment)
  {
    hide CountUpTo, LabelAt;
    var series, longer := SeriesOf(candles), SeriesOf(more);
    assert Closes(candles) <= Closes(more);
    forall i | 0 <= i < |series|
      ensures series[i] == longer[i]
    {
      LabelStable(Closes(candles), Closes(more), i);
    }
    assert Stamps(longer) == CloseTimes(more) && Stamps(series) <= Stamps(longer);
    CountUpToStable(Stamps(series), Stamps(longer), moment);
  }
}
