/** The live price monitor's scan of one recommendation (src/monitor.py). */
module PriceEvents {
  import opened Domain
  import opened Tracks
  import opened Resolution

  datatype Rules = Rules(target: real, stop: real, holdHours: nat)

  /** Target, stop and hold by track key; unknown keys fall back to the regime rules. */
  function RulesFor(track: string): Rules {
    if track == DAY_TRACK.key then Rules(DAY_TRACK.target, DAY_TRACK.stop, DAY_TRACK.holdHours)
    else if track == MID_TRACK.key then Rules(MID_TRACK.target, MID_TRACK.stop, MID_TRACK.holdHours)
    else if track == LONG_TRACK.key then Rules(LONG_TRACK.target, LONG_TRACK.stop, LONG_TRACK.holdHours)
    else Rules(TARGET_RETURN, STOP_LOSS, FORWARD_BARS)
  }

  datatype Kind = EntryTouched | TargetHit | StopHit

  datatype Monitored = Monitored(
    runTime: Time,
    market: string,
    entryPrice: real,
    entryTime: Time,
    entryTouchedAt: Option<Time>,
    track: string)
  {
    function Target(): real { entryPrice * (1.0 + RulesFor(track).target) }
    function Stop(): real { entryPrice * (1.0 - RulesFor(track).stop) }

    /** The bar belongs to the holding period. */
    predicate Held(bar: Candle) { bar.time >= entryTime }

    /** The bar ends the position. */
    predicate Decisive(bar: Candle) {
      Held(bar) && (HitsStop(bar, Stop()) || HitsTarget(bar, Target()))
    }

    /** The event a decisive bar raises: the stop wins a tie. */
    function Closing(bar: Candle): PriceEvent {
      if HitsStop(bar, Stop()) then PriceEvent(market, runTime, StopHit, Stop(), bar.time, track)
      else PriceEvent(market, runTime, TargetHit, Target(), bar.time, track)
    }

    function Touching(bar: Candle): PriceEvent {
      PriceEvent(market, runTime, EntryTouched, entryPrice, bar.time, track)
    }
  }

  datatype PriceEvent = PriceEvent(market: string, runTime: Time, kind: Kind, price: real, at: Time, track: string)

  /** Events raised by bars k onwards, given whether the entry touch was already reported. */
  function EventsFrom(rec: Monitored, bars: seq<Candle>, k: nat, seen: bool): (events: seq<PriceEvent>)
    requires k <= |bars|
    decreases |bars| - k
  {
    if k == |bars| then []
    else if rec.Decisive(bars[k]) then [rec.Closing(bars[k])]
    else if rec.Held(bars[k]) && !seen && bars[k].low <= rec.entryPrice then
      [rec.Touching(bars[k])] + EventsFrom(rec, bars, k + 1, true)
    else EventsFrom(rec, bars, k + 1, seen)
  }

  function EventsOf(rec: Monitored, bars: seq<Candle>): seq<PriceEvent> {
    EventsFrom(rec, bars, 0, rec.entryTouchedAt.Some?)
  }

  /** `_events_for`: one pass with early exit. */
  method EventsFor(rec: Monitored, bars: seq<Candle>) returns (events: seq<PriceEvent>)
    ensures events == EventsOf(rec, bars)
  {
    var targetPrice, stopPrice := rec.Target(), rec.Stop();
    var entrySeen := rec.entryTouchedAt.Some?;
    events := [];
    for k := 0 to |bars|
      invariant events + EventsFrom(rec, bars, k, entrySeen) == EventsOf(rec, bars)
    {
      var bar := bars[k];
      if bar.time < rec.entryTime { continue; }
      if bar.low <= stopPrice {
        events := events + [PriceEvent(rec.market, rec.runTime, StopHit, stopPrice, bar.time, rec.track)];
        return;
      }
      if bar.high >= targetPrice {
        events := events + [PriceEvent(rec.market, rec.runTime, TargetHit, targetPrice, bar.time, rec.track)];
        return;
      }
      if !entrySeen && bar.low <= rec.entryPrice {
        entrySeen := true;
        events := events + [PriceEvent(rec.market, rec.runTime, EntryTouched, rec.entryPrice, bar.time, rec.track)];
      }
    }
  }

  // ---- shape of one scan -------------------------------------------------------------------

  predicate Terminal(event: PriceEvent) { event.kind != EntryTouched }

  predicate Ended(events: seq<PriceEvent>) {
    events != [] && Terminal(events[|events| - 1])
  }

  /** First bar from k on that ends the position, or the number of bars. */
  function FirstDecisive(rec: Monitored, bars: seq<Candle>, k: nat): (d: nat)
    requires k <= |bars|
    ensures k <= d <= |bars|
    ensures forall j :: k <= j < d ==> !rec.Decisive(bars[j])
    ensures d < |bars| ==> rec.Decisive(bars[d])
    decreases |bars| - k
  {
    if k == |bars| || rec.Decisive(bars[k]) then k else FirstDecisive(rec, bars, k + 1)
  }

  /** At most one entry touch, then at most one closing event, which is the first decisive
      bar's; a scan that starts with the touch already seen reports no other. */
  lemma {:induction false} ScanShape(rec: Monitored, bars: seq<Candle>, k: nat, seen: bool)
    requires k <= |bars|
    ensures var events, d := EventsFrom(rec, bars, k, seen), FirstDecisive(rec, bars, k);
            && (Ended(events) <==> d < |bars|)
            && (d < |bars| ==> events[|events| - 1] == rec.Closing(bars[d]))
            && (forall i :: 0 <= i < |events| - 1 ==> !Terminal(events[i]))
            && |events| <= (if seen then 0 else 1) + (if d < |bars| then 1 else 0)
    decreases |bars| - k
  {
    if k < |bars| && !rec.Decisive(bars[k]) {
      ScanShape(rec, bars, k + 1, true);
      ScanShape(rec, bars, k + 1, seen);
    }
  }

  /** The position is still on when bar k prints: no bar since the entry, and since `from`, reached
      either price before. */
  ghost predicate OpenUntil(rec: Monitored, bars: seq<Candle>, from: nat, k: nat) {
    && from <= k < |bars| && rec.entryTime <= bars[k].time
    && forall j :: from <= j < k && rec.entryTime <= bars[j].time ==>
         rec.Stop() < bars[j].low && bars[j].high < rec.Target()
  }

  /** Bar k reaches the stop; or the target and not the stop; or, with nobody told of it yet, neither
      of them but the entry price, as the first bar to do so. */
  ghost predicate CallsFor(rec: Monitored, bars: seq<Candle>, from: nat, seen: bool, k: nat, event: PriceEvent) {
    && OpenUntil(rec, bars, from, k)
    && event.market == rec.market && event.runTime == rec.runTime && event.track == rec.track
    && event.at == bars[k].time
    && match event.kind
       case StopHit => bars[k].low <= rec.Stop() == event.price
       case TargetHit => rec.Stop() < bars[k].low && event.price == rec.Target() <= bars[k].high
       case EntryTouched =>
         && !seen && rec.Stop() < bars[k].low <= rec.entryPrice == event.price && bars[k].high < rec.Target()
         && forall j :: from <= j < k && rec.entryTime <= bars[j].time ==> rec.entryPrice < bars[j].low
  }

  /** The scan raises exactly the events its bars call for. */
  lemma {:induction false} ScanMeans(rec: Monitored, bars: seq<Candle>, from: nat, seen: bool, event: PriceEvent)
    requires from <= |bars|
    ensures event in EventsFrom(rec, bars, from, seen) <==> exists k: nat :: CallsFor(rec, bars, from, seen, k, event)
    decreases |bars| - from
  {
    hide CallsFor, RaisedBy;
    CallsAfter(rec, bars, from, seen, event);
    if from < |bars| {
      var next := seen || (rec.Held(bars[from]) && bars[from].low <= rec.entryPrice);
      forall k: nat
        ensures CallsFor(rec, bars, from, seen, k, event) <==>
                if k == from then event in RaisedBy(rec, bars[from], seen)
                else !rec.Decisive(bars[from]) && CallsFor(rec, bars, from + 1, next, k, event)
      {
        CallStep(rec, bars, from, seen, k, event);
      }
      OneBar(rec, bars, from, seen);
      CallsAfter(rec, bars, from + 1, next, event);
      ScanMeans(rec, bars, from + 1, next, event);
      if event in RaisedBy(rec, bars[from], seen) {
        assert CallsFor(rec, bars, from, seen, from, event);
      } else if event in EventsFrom(rec, bars, from, seen) {
        var k: nat :| CallsFor(rec, bars, from + 1, next, k, event);
        assert CallsFor(rec, bars, from, seen, k, event);
      }
    }
  }

  /** What one bar raises. */
  function RaisedBy(rec: Monitored, bar: Candle, seen: bool): seq<PriceEvent> {
    if rec.Decisive(bar) then [rec.Closing(bar)]
    else if rec.Held(bar) && !seen && bar.low <= rec.entryPrice then [rec.Touching(bar)]
    else []
  }

  lemma OneBar(rec: Monitored, bars: seq<Candle>, k: nat, seen: bool)
    requires k < |bars|
    ensures EventsFrom(rec, bars, k, seen) == RaisedBy(rec, bars[k], seen)
              + if rec.Decisive(bars[k]) then []
                else EventsFrom(rec, bars, k + 1, seen || (rec.Held(bars[k]) && bars[k].low <= rec.entryPrice))
  {
    hide Monitored.Target, Monitored.Stop;
  }

  lemma CallsAfter(rec: Monitored, bars: seq<Candle>, from: nat, seen: bool, event: PriceEvent)
    ensures forall k: nat :: CallsFor(rec, bars, from, seen, k, event) ==> from <= k < |bars|
  {
  }

  lemma CallStep(rec: Monitored, bars: seq<Candle>, from: nat, seen: bool, k: nat, event: PriceEvent)
    requires from < |bars|
    ensures var next := seen || (rec.Held(bars[from]) && bars[from].low <= rec.entryPrice);
            CallsFor(rec, bars, from, seen, k, event) <==>
            if k == from then event in RaisedBy(rec, bars[from], seen)
            else !rec.Decisive(bars[from]) && CallsFor(rec, bars, from + 1, next, k, event)
  {
    hide Monitored.Target, Monitored.Stop;
  }

  /** Having reported the touch changes nothing else. */
  lemma {:induction false} TouchOnly(rec: Monitored, bars: seq<Candle>, k: nat)
    requires k <= |bars|
    ensures var unseen, seen := EventsFrom(rec, bars, k, false), EventsFrom(rec, bars, k, true);
            if unseen != [] && !Terminal(unseen[0]) then unseen == [unseen[0]] + seen else unseen == seen
    decreases |bars| - k
  {
    if k < |bars| {
      TouchOnly(rec, bars, k + 1);
    }
  }

  /** New bars add events after the old ones, and none once the position has ended. */
  lemma {:induction false} ScanExtends(rec: Monitored, bars: seq<Candle>, more: seq<Candle>, k: nat, seen: bool)
    requires k <= |bars| && bars <= more
    ensures EventsFrom(rec, bars, k, seen) <= EventsFrom(rec, more, k, seen)
    ensures Ended(EventsFrom(rec, bars, k, seen)) ==> EventsFrom(rec, more, k, seen) == EventsFrom(rec, bars, k, seen)
    decreases |bars| - k
  {
    if k < |bars| {
      assert bars[k] == more[k];
      ScanExtends(rec, bars, more, k + 1, true);
      ScanExtends(rec, bars, more, k + 1, seen);
    }
  }

  // ---- incremental monitoring --------------------------------------------------------------

  /** The three event columns of one row. */
  datatype Columns = Columns(entryAt: Option<Time>, targetAt: Option<Time>, stopAt: Option<Time>) {
    predicate Open() { targetAt.None? && stopAt.None? }

    function Of(kind: Kind): Option<Time> {
      match kind
      case EntryTouched => entryAt
      case TargetHit => targetAt
      case StopHit => stopAt
    }

    /** `mark_price_event`: written only while the column is NULL. */
    function Mark(kind: Kind, at: Time): Columns {
      if Of(kind).Some? then this else
      match kind
      case EntryTouched => this.(entryAt := Some(at))
      case TargetHit => this.(targetAt := Some(at))
      case StopHit => this.(stopAt := Some(at))
    }

    function MarkAll(events: seq<PriceEvent>): Columns
      decreases events
    {
      if events == [] then this else Mark(events[0].kind, events[0].at).MarkAll(events[1..])
    }
  }

  const UNMARKED := Columns(None, None, None)

  /** What one check reads: the closed bars since the entry, or nothing when the fetch failed. */
  type Fetch = Option<seq<Candle>>

  /** Events one check raises for a row. A closed position is no longer fetched. */
  function CheckEvents(rec: Monitored, columns: Columns, fetch: Fetch): seq<PriceEvent> {
    if !columns.Open() || fetch.None? then [] else EventsOf(rec.(entryTouchedAt := columns.entryAt), fetch.value)
  }

  /** Events and columns after a run of checks. */
  function RunChecks(rec: Monitored, fetches: seq<Fetch>): (seq<PriceEvent>, Columns) {
    if fetches == [] then ([], UNMARKED) else
    var (events, columns) := RunChecks(rec, fetches[..|fetches| - 1]);
    var raised := CheckEvents(rec, columns, fetches[|fetches| - 1]);
    (events + raised, columns.MarkAll(raised))
  }

  /** Closed bars are only ever appended. */
  ghost predicate Growing(fetches: seq<Fetch>) {
    forall i, j :: 0 <= i < j < |fetches| && fetches[i].Some? && fetches[j].Some? ==>
      fetches[i].value <= fetches[j].value
  }

  /** The bars seen at the last check whose fetch succeeded. */
  function LastSeen(fetches: seq<Fetch>): seq<Candle> {
    if fetches == [] then []
    else if fetches[|fetches| - 1].Some? then fetches[|fetches| - 1].value
    else LastSeen(fetches[..|fetches| - 1])
  }

  lemma {:induction false} LastSeenGrows(fetches: seq<Fetch>, next: seq<Candle>)
    requires Growing(fetches + [Some(next)])
    ensures LastSeen(fetches) <= next
  {
    if fetches != [] {
      var last := |fetches| - 1;
      if fetches[last].Some? {
        var all := fetches + [Some(next)];
        assert all[last] == fetches[last] && all[last + 1] == Some(next);
      } else {
        var front := fetches[..last];
        forall i, j | 0 <= i < j < |front + [Some(next)]| && (front + [Some(next)])[i].Some?
          && (front + [Some(next)])[j].Some?
          ensures (front + [Some(next)])[i].value <= (front + [Some(next)])[j].value
        {
          var all := fetches + [Some(next)];
          assert all[i] == (front + [Some(next)])[i];
          assert all[if j == last then last + 1 else j] == (front + [Some(next)])[j];
        }
        LastSeenGrows(front, next);
      }
    }
  }

  /** Marking what one scan of an unmarked row raised: every event is recorded. */
  lemma MarkedScan(rec: Monitored, bars: seq<Candle>)
    ensures var events := EventsFrom(rec, bars, 0, false);
            var columns := UNMARKED.MarkAll(events);
            && (columns.Open() <==> !Ended(events))
            && (!Ended(events) ==> columns.entryAt.Some? == (events != []))
            && (forall kind, at :: columns.Of(kind) == Some(at) <==>
                  exists i :: 0 <= i < |events| && events[i].kind == kind && events[i].at == at)
  {
    ScanShape(rec, bars, 0, false);
    var events := EventsFrom(rec, bars, 0, false);
    if |events| == 2 {
      var one := UNMARKED.Mark(events[0].kind, events[0].at);
      assert events[1..] == [events[1]] && [events[1]][1..] == [];
      assert one.MarkAll([events[1]]) == one.Mark(events[1].kind, events[1].at);
    } else if |events| == 1 {
      assert events == [events[0]];
    }
  }

  lemma {:induction false} MarkAllAppends(columns: Columns, first: seq<PriceEvent>, second: seq<PriceEvent>)
    ensures columns.MarkAll(first + second) == columns.MarkAll(first).MarkAll(second)
    decreases first
  {
    if first == [] {
      assert first + second == second;
    } else {
      assert (first + second)[1..] == first[1..] + second;
      MarkAllAppends(columns.Mark(first[0].kind, first[0].at), first[1..], second);
    }
  }

  /** One more check over more bars: the new events complete the old ones to a full scan. */
  lemma NextCheck(rec: Monitored, earlier: seq<Candle>, more: seq<Candle>)
    requires earlier <= more
    ensures var before := EventsFrom(rec, earlier, 0, false);
            before + CheckEvents(rec, UNMARKED.MarkAll(before), Some(more)) == EventsFrom(rec, more, 0, false)
  {
    var before, after := EventsFrom(rec, earlier, 0, false), EventsFrom(rec, more, 0, false);
    ScanExtends(rec, earlier, more, 0, false);
    MarkedScan(rec, earlier);
    ScanShape(rec, earlier, 0, false);
    if !Ended(before) {
      TouchOnly(rec, more, 0);
      var columns := UNMARKED.MarkAll(before);
      SameRecScan(rec, columns.entryAt, more, 0, columns.entryAt.Some?);
      if before != [] {
        assert before == [before[0]] && after[0] == before[0];
      }
    }
  }

  /** The scan reads the stored touch only through `seen`. */
  lemma {:induction false} SameRecScan(rec: Monitored, touched: Option<Time>, bars: seq<Candle>, k: nat, seen: bool)
    requires k <= |bars|
    ensures EventsFrom(rec.(entryTouchedAt := touched), bars, k, seen) == EventsFrom(rec, bars, k, seen)
    decreases |bars| - k
  {
    if k < |bars| {
      SameRecScan(rec, touched, bars, k + 1, true);
      SameRecScan(rec, touched, bars, k + 1, seen);
    }
  }

  /** Any schedule of checks, with failed fetches skipped, raises exactly the events of one
      scan from scratch over the bars of the last successful check, and records each of them. */
  lemma {:induction false} IncrementalEqualsBatch(rec: Monitored, fetches: seq<Fetch>)
    requires Growing(fetches)
    ensures RunChecks(rec, fetches).0 == EventsFrom(rec, LastSeen(fetches), 0, false)
    ensures RunChecks(rec, fetches).1 == UNMARKED.MarkAll(RunChecks(rec, fetches).0)
  {
    if fetches != [] {
      var front, last := fetches[..|fetches| - 1], fetches[|fetches| - 1];
      IncrementalEqualsBatch(rec, front);
      var (events, columns) := RunChecks(rec, front);
      if last.Some? {
        assert fetches == front + [Some(last.value)];
        LastSeenGrows(front, last.value);
        NextCheck(rec, LastSeen(front), last.value);
      }
      MarkAllAppends(UNMARKED, events, CheckEvents(rec, columns, last));
    }
  }

  /** Hence each kind is raised at most once, the closing event is last, and the columns hold
      exactly the instants raised. */
  lemma AlertsOnce(rec: Monitored, fetches: seq<Fetch>)
    requires Growing(fetches)
    ensures var (events, columns) := RunChecks(rec, fetches);
            && (forall i, j :: 0 <= i < j < |events| ==> events[i].kind != events[j].kind && !Terminal(events[i]))
            && (forall kind, at :: columns.Of(kind) == Some(at) <==>
                  exists i :: 0 <= i < |events| && events[i].kind == kind && events[i].at == at)
            && (columns.targetAt.None? || columns.stopAt.None?)
  {
    IncrementalEqualsBatch(rec, fetches);
    ScanShape(rec, LastSeen(fetches), 0, false);
    MarkedScan(rec, LastSeen(fetches));
    var (events, columns) := RunChecks(rec, fetches);
    assert columns.targetAt.Some? ==> columns.Of(TargetHit) == Some(columns.targetAt.value);
    assert columns.stopAt.Some? ==> columns.Of(StopHit) == Some(columns.stopAt.value);
  }

  // ---- agreement with the backtest -----------------------------------------------------------

  /** The monitor watches the position the backtest judges: same entry, same prices, and bars
      that the judging bars of the hold window merge k at a time. */
  ghost predicate SamePosition(rec: Monitored, bars: seq<Candle>, entry: Candle, spec: TrackSpec, sim: SimSeries,
                               k: nat)
    requires spec.simTimeframe != M1 && sim.Valid() && Judgeable(entry, spec, sim)
  {
    && rec.entryPrice == entry.close
    && RulesFor(rec.track).target == spec.target && RulesFor(rec.track).stop == spec.stop
    && (forall j :: 0 <= j < |bars| ==> rec.Held(bars[j]))
    && MergesAll(Window(entry, spec, sim), bars, k)
  }

  lemma DecisiveIsTouch(rec: Monitored, bars: seq<Candle>)
    requires bars != [] && forall j :: 0 <= j < |bars| ==> rec.Held(bars[j])
    ensures var d, f := FirstDecisive(rec, bars, 0), EndOf(bars, rec.Stop(), rec.Target());
            if d < |bars| then d == f else !Touches(bars[f], rec.Stop(), rec.Target())
  {
    FirstTouchIs(bars, rec.Stop(), rec.Target(), 0, |bars|, FirstDecisive(rec, bars, 0));
  }

  /** After the target, a later bar of the same judging bar reaches the stop. */
  ghost predicate StopFollows(rec: Monitored, bars: seq<Candle>, d: nat, end: nat)
    requires d < end <= |bars|
  {
    !HitsStop(bars[d], rec.Stop()) && exists q :: d < q < end && HitsStop(bars[q], rec.Stop())
  }

  /** The monitor ends a position exactly when the backtest does not time out, inside the judging
      bar that decides the backtest. The two disagree in one case only: the target is followed by
      a stop touch inside that bar, which the backtest calls a loss. On equal grids they agree. */
  lemma MonitorAgreesWithBacktest(
    rec: Monitored, bars: seq<Candle>, entry: Candle, spec: TrackSpec, sim: SimSeries, k: nat, seen: bool)
    requires spec.simTimeframe != M1 && sim.Valid() && Judgeable(entry, spec, sim)
    requires SamePosition(rec, bars, entry, spec, sim, k)
    ensures var verdict := SimulateSpec(entry, spec, sim).value.verdict;
            var events := EventsFrom(rec, bars, 0, seen);
            && (Ended(events) <==> verdict != Timedout)
            && (Ended(events) ==>
                  var kind, d := events[|events| - 1].kind, FirstDecisive(rec, bars, 0);
                  var end := Block(EndOf(Window(entry, spec, sim), rec.Stop(), rec.Target()), k) + k;
                  && d < end <= |bars|
                  && (if StopFollows(rec, bars, d, end) then kind == TargetHit && verdict == Loss
                      else kind == StopHit <==> verdict == Loss)
                  && (k == 1 ==> !StopFollows(rec, bars, d, end)))
  {
    hide Block, StopPrice, TargetPrice, EndOf, CountUpTo, Length, BarsFor, EventsFrom, FirstDecisive, MergesAll,
      SimulateSpec, Judgeable, Window;
    var window := Window(entry, spec, sim);
    PricesMatch(rec, entry.close, spec);
    ScanShape(rec, bars, 0, seen);
    OutcomeOfWindow(entry, spec, sim);
    RacesAgree(window, bars, k, rec.Stop(), rec.Target());
    DecisiveIsTouch(rec, bars);
    SingleBlock(EndOf(window, rec.Stop(), rec.Target()));
  }

  lemma SingleBlock(c: nat)
    ensures Block(c, 1) == c
  {
  }

  lemma PricesMatch(rec: Monitored, entry: real, spec: TrackSpec)
    requires rec.entryPrice == entry && RulesFor(rec.track).target == spec.target
             && RulesFor(rec.track).stop == spec.stop
    ensures rec.Stop() == StopPrice(entry, spec) && rec.Target() == TargetPrice(entry, spec)
  {
  }
}
