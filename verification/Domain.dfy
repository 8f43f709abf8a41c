/** Vocabulary shared by every component: instants, timeframes, candles, and the binary
    search on closing times that both the judging series and the as-of lookups use. */
module Domain {

  datatype Option<+T> = None | Some(value: T)

  /** An instant or a duration in microseconds, the resolution of a Python datetime. */
  type Time = int

  const MINUTE: Time := 60_000_000
  const HOUR: Time := 60 * MINUTE
  const DAY: Time := 24 * HOUR

  /** The regime track's rules: target, stop and holding period in hours. */
  const TARGET_RETURN := 0.03
  const STOP_LOSS := 0.02
  const FORWARD_BARS: nat := 24

  datatype Timeframe = M1 | M15 | M30 | H1 | H4 | D1 | W1 | MO1

  /** Length of a bar; the month is the source's 30-day approximation. */
  function Length(timeframe: Timeframe): (length: Time)
    ensures length >= MINUTE
  {
    match timeframe
    case M1 => MINUTE
    case M15 => 15 * MINUTE
    case M30 => 30 * MINUTE
    case H1 => HOUR
    case H4 => 4 * HOUR
    case D1 => 24 * HOUR
    case W1 => 168 * HOUR
    case MO1 => 720 * HOUR
  }

  /** In minutes: the lengths of the eight timeframes. */
  lemma LengthsAre(timeframe: Timeframe)
    ensures Length(timeframe) == 60_000_000 * match timeframe
                                              case M1 => 1 case M15 => 15 case M30 => 30 case H1 => 60
                                              case H4 => 240 case D1 => 1_440 case W1 => 10_080 case MO1 => 43_200
  {
  }

  /** `time` is the instant the bar OPENS. */
  datatype Candle = Candle(
    market: string,
    timeframe: Timeframe,
    time: Time,
    open: real,
    high: real,
    low: real,
    close: real,
    volume: real)

  function CloseTime(candle: Candle): Time {
    candle.time + Length(candle.timeframe)
  }

  function CloseTimes(candles: seq<Candle>): (times: seq<Time>)
    ensures |times| == |candles|
    ensures forall k :: 0 <= k < |candles| ==> times[k] == CloseTime(candles[k])
  {
    seq(|candles|, k requires 0 <= k < |candles| => CloseTime(candles[k]))
  }

  ghost predicate Ascending(times: seq<Time>) {
    forall j, k :: 0 <= j < k < |times| ==> times[j] < times[k]
  }

  ghost predicate NonDescending(times: seq<Time>) {
    forall j, k :: 0 <= j < k < |times| ==> times[j] <= times[k]
  }

  /** CPython's `bisect_right` on the slice [lo, hi). */
  function BisectRight(times: seq<Time>, moment: Time, lo: nat, hi: nat): (r: nat)
    requires lo <= hi <= |times|
    ensures lo <= r <= hi
    decreases hi - lo
  {
    if lo == hi then lo else
    var mid := (lo + hi) / 2;
    if moment < times[mid] then BisectRight(times, moment, lo, mid)
    else BisectRight(times, moment, mid + 1, hi)
  }

  /** Number of times at or before `moment`, as the library call computes it. */
  function CountUpTo(times: seq<Time>, moment: Time): (r: nat)
    ensures r <= |times|
  {
    BisectRight(times, moment, 0, |times|)
  }

  lemma {:induction false} BisectPartitions(times: seq<Time>, moment: Time, lo: nat, hi: nat)
    requires NonDescending(times)
    requires lo <= hi <= |times|
    requires forall k :: 0 <= k < lo ==> times[k] <= moment
    requires forall k :: hi <= k < |times| ==> moment < times[k]
    ensures forall k :: 0 <= k < BisectRight(times, moment, lo, hi) ==> times[k] <= moment
    ensures forall k :: BisectRight(times, moment, lo, hi) <= k < |times| ==> moment < times[k]
    decreases hi - lo
  {
    if lo < hi {
      var mid := (lo + hi) / 2;
      if moment < times[mid] {
        BisectPartitions(times, moment, lo, mid);
      } else {
        BisectPartitions(times, moment, mid + 1, hi);
      }
    }
  }

  /** On ordered times the binary search is characterised by what lies on each side of it. */
  lemma CountUpToIs(times: seq<Time>, moment: Time, r: nat)
    requires NonDescending(times)
    requires r <= |times|
    ensures CountUpTo(times, moment) == r <==>
            && (forall k :: 0 <= k < r ==> times[k] <= moment)
            && (forall k :: r <= k < |times| ==> moment < times[k])
  {
    BisectPartitions(times, moment, 0, |times|);
    var c := CountUpTo(times, moment);
    if c < r {
      assert moment < times[c];
    } else if r < c {
      assert times[r] <= moment;
    }
  }

  /** Times appended after `moment` do not change the search. */
  lemma CountUpToStable(times: seq<Time>, longer: seq<Time>, moment: Time)
    requires NonDescending(longer) && times <= longer
    requires forall k :: |times| <= k < |longer| ==> moment < longer[k]
    ensures CountUpTo(times, moment) == CountUpTo(longer, moment)
  {
    var c := CountUpTo(longer, moment);
    CountUpToIs(longer, moment, c);
    assert |times| < |longer| ==> moment < longer[|times|];
    CountUpToIs(times, moment, c);
  }

  /** Every element of an ascending sequence finds itself. */
  lemma CountUpToOwn(times: seq<Time>, k: nat)
    requires Ascending(times) && k < |times|
    ensures CountUpTo(times, times[k]) == k + 1
  {
    CountUpToIs(times, times[k], k + 1);
  }

  function Min(x: real, y: real): real {
    if y < x then y else x
  }
}
