/** One market's stored bars on one timeframe: the table is keyed and read by opening time
    (src/data_store.py, `upsert_candles` and `get_candles`). */
module CandleTable {
  import opened Domain
  import opened Exchange

  ghost predicate ByTime(rows: seq<Candle>) {
    forall j, k :: 0 <= j < k < |rows| ==> rows[j].time < rows[k].time
  }

  /** Insert the bar, or replace the one with the same opening time. */
  function Put(rows: seq<Candle>, candle: Candle): seq<Candle> {
    if rows == [] || candle.time < rows[0].time then [candle] + rows
    else if candle.time == rows[0].time then [candle] + rows[1..]
    else [rows[0]] + Put(rows[1..], candle)
  }

  function PutAll(rows: seq<Candle>, candles: seq<Candle>): seq<Candle> {
    if candles == [] then rows else Put(PutAll(rows, candles[..|candles| - 1]), candles[|candles| - 1])
  }

  lemma {:induction false} PutOrdered(rows: seq<Candle>, candle: Candle)
    requires ByTime(rows)
    ensures ByTime(Put(rows, candle)) && Put(rows, candle) != []
    ensures Put(rows, candle)[0].time == if rows == [] || candle.time < rows[0].time then candle.time else rows[0].time
  {
    if rows != [] && candle.time > rows[0].time {
      PutOrdered(rows[1..], candle);
      var put := Put(rows[1..], candle);
      assert forall k :: 0 <= k < |put| ==> put[0].time <= put[k].time;
    }
  }

  lemma {:induction false} PutMembers(rows: seq<Candle>, candle: Candle, c: Candle)
    requires ByTime(rows)
    ensures c in Put(rows, candle) <==> c == candle || (c in rows && c.time != candle.time)
  {
    if rows != [] {
      TailMembers(rows, c);
      if candle.time > rows[0].time {
        PutMembers(rows[1..], candle, c);
      } else {
        TailLater(rows, c);
      }
    }
  }

  lemma TailLater(x: seq<Candle>, c: Candle)
    requires ByTime(x) && x != []
    ensures c in x[1..] ==> x[0].time < c.time
  {
    if c in x[1..] {
      var k :| 0 <= k < |x| - 1 && x[1..][k] == c;
      assert x[0].time < x[k + 1].time;
    }
  }

  lemma TailMembers(x: seq<Candle>, c: Candle)
    requires ByTime(x) && x != []
    ensures c in x[1..] <==> c in x && c != x[0]
  {
    assert x == [x[0]] + x[1..];
    if c in x[1..] {
      var k :| 0 <= k < |x| - 1 && x[1..][k] == c;
      assert x[0].time < x[k + 1].time;
    }
  }

  lemma SameMembersEmpty(x: seq<Candle>, y: seq<Candle>)
    requires forall c :: c in x <==> c in y
    ensures x == [] <==> y == []
  {
    if |x| > 0 {
      assert x[0] in x;
    }
    if |y| > 0 {
      assert y[0] in y;
    }
  }

  /** Ordered tables with the same bars are equal. */
  lemma {:induction false} SameBarsEqual(x: seq<Candle>, y: seq<Candle>)
    requires ByTime(x) && ByTime(y)
    requires forall c :: c in x <==> c in y
    ensures x == y
  {
    SameMembersEmpty(x, y);
    if x != [] {
      assert x[0] in y && y[0] in x;
      assert x[0] == y[0];
      forall c
        ensures c in x[1..] <==> c in y[1..]
      {
        TailMembers(x, c);
        TailMembers(y, c);
      }
      SameBarsEqual(x[1..], y[1..]);
    }
  }

  /** Every stored bar is one the exchange printed. */
  ghost predicate From(rows: seq<Candle>, bars: seq<Candle>) {
    forall c <- rows :: c in bars
  }

  lemma PrintedOnce(bars: seq<Candle>, timeframe: Timeframe, c: Candle, d: Candle)
    requires Printed(bars, timeframe) && c in bars && d in bars && c.time == d.time
    ensures c == d
  {
  }

  /** Storing printed bars again changes nothing; storing new ones adds exactly them. */
  lemma {:induction false} PutAllUnion(bars: seq<Candle>, timeframe: Timeframe, rows: seq<Candle>, candles: seq<Candle>)
    requires Printed(bars, timeframe) && ByTime(rows) && From(rows, bars) && From(candles, bars)
    ensures ByTime(PutAll(rows, candles))
    ensures forall c :: c in PutAll(rows, candles) <==> c in rows || c in candles
  {
    if candles != [] {
      var front, last := candles[..|candles| - 1], candles[|candles| - 1];
      assert candles == front + [last];
      PutAllUnion(bars, timeframe, rows, front);
      var before := PutAll(rows, front);
      PutOrdered(before, last);
      forall c
        ensures c in Put(before, last) <==> c in before || c == last
      {
        PutMembers(before, last, c);
        if c in before && c.time == last.time {
          PrintedOnce(bars, timeframe, c, last);
        }
      }
    }
  }

  lemma SliceOrdered(bars: seq<Candle>, timeframe: Timeframe, a: nat, b: nat)
    requires Printed(bars, timeframe) && a <= b <= |bars|
    ensures ByTime(bars[a..b]) && From(bars[a..b], bars)
  {
  }

  /** Overlapping or touching slices merge into one. */
  lemma SlicesMerge(bars: seq<Candle>, timeframe: Timeframe, lo: nat, hi: nat, a: nat, b: nat)
    requires Printed(bars, timeframe) && lo <= hi <= |bars| && a <= b <= |bars| && a <= hi && lo <= b
    ensures PutAll(bars[lo..hi], bars[a..b]) == bars[Lesser(lo, a)..Greater(hi, b)]
  {
    hide Printed, ByTime, From, PutAll;
    var whole := bars[Lesser(lo, a)..Greater(hi, b)];
    SliceOrdered(bars, timeframe, lo, hi);
    SliceOrdered(bars, timeframe, a, b);
    SliceOrdered(bars, timeframe, Lesser(lo, a), Greater(hi, b));
    PutAllUnion(bars, timeframe, bars[lo..hi], bars[a..b]);
    forall c
      ensures c in whole <==> c in bars[lo..hi] || c in bars[a..b]
    {
      SliceMembers(bars, lo, hi, a, b, c);
    }
    SameBarsEqual(PutAll(bars[lo..hi], bars[a..b]), whole);
  }

  lemma InSlice(bars: seq<Candle>, a: nat, b: nat, c: Candle)
    requires a <= b <= |bars|
    ensures c in bars[a..b] <==> exists k :: a <= k < b && bars[k] == c
  {
    if c in bars[a..b] {
      var i :| 0 <= i < |bars[a..b]| && bars[a..b][i] == c;
      assert bars[a + i] == c;
    }
    if k :| a <= k < b && bars[k] == c {
      assert bars[a..b][k - a] == c;
    }
  }

  lemma SliceMembers(bars: seq<Candle>, lo: nat, hi: nat, a: nat, b: nat, c: Candle)
    requires lo <= hi <= |bars| && a <= b <= |bars| && a <= hi && lo <= b
    ensures c in bars[Lesser(lo, a)..Greater(hi, b)] <==> c in bars[lo..hi] || c in bars[a..b]
  {
    InSlice(bars, lo, hi, c);
    InSlice(bars, a, b, c);
    InSlice(bars, Lesser(lo, a), Greater(hi, b), c);
  }

  /** Slices with a gap between them stay apart. */
  lemma SlicesApart(bars: seq<Candle>, timeframe: Timeframe, lo: nat, hi: nat, a: nat, b: nat)
    requires Printed(bars, timeframe) && a <= b < lo <= hi <= |bars|
    ensures PutAll(bars[lo..hi], bars[a..b]) == bars[a..b] + bars[lo..hi]
  {
    hide Printed, From, PutAll;
    SliceOrdered(bars, timeframe, lo, hi);
    SliceOrdered(bars, timeframe, a, b);
    PutAllUnion(bars, timeframe, bars[lo..hi], bars[a..b]);
    BothOrdered(bars, timeframe, lo, hi, a, b);
    SameBarsEqual(PutAll(bars[lo..hi], bars[a..b]), bars[a..b] + bars[lo..hi]);
  }

  lemma BothOrdered(bars: seq<Candle>, timeframe: Timeframe, lo: nat, hi: nat, a: nat, b: nat)
    requires Printed(bars, timeframe) && a <= b < lo <= hi <= |bars|
    ensures ByTime(bars[a..b] + bars[lo..hi])
  {
  }
}
