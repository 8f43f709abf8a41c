/** What is marked for one position over any schedule of the ledger, against one scan from scratch
    (src/monitor.py, `check_price_events`): checks may fail, skip the row, or be abandoned between two
    marks, and pipeline runs may interleave. */
module AlertHistory {
  import opened Domain
  import opened PriceEvents
  import opened Rows
  import opened Ledger
  import opened Monitor

  /** The events of one row, in order. */
  function OfRow(list: seq<PriceEvent>, key: RowKey): seq<PriceEvent> {
    if list == [] then []
    else
      var last := list[|list| - 1];
      OfRow(list[..|list| - 1], key) + if KeyOfEvent(last) == key then [last] else []
  }

  /** The row's events that the running check has still to mark. */
  function PendingOf(watch: Watch, key: RowKey): seq<PriceEvent> {
    if watch.Marking? && watch.events != [] && KeyOfEvent(watch.events[0]) == key then watch.events else []
  }

  /** The bars of the row's last scan, and whether none of its events was given up. */
  datatype Seen = Seen(bars: seq<Candle>, whole: bool)

  const NOTHING_SEEN := Seen([], true)

  predicate ScansRow(s: State, step: Step, key: RowKey) {
    step.Scan? && s.watch.Watching? && s.watch.todo != [] && KeyOfRec(s.watch.todo[0]) == key
  }

  function Observe(s: State, step: Step, key: RowKey, seen: Seen): Seen {
    if ScansRow(s, step, key) then Seen(step.bars, true)
    else if step.Abandon? && PendingOf(s.watch, key) != [] then seen.(whole := false)
    else seen
  }

  function Observed(s: State, steps: seq<Step>, key: RowKey, seen: Seen): Seen
    requires Schedulable(s, steps)
    decreases steps
  {
    if steps == [] then seen
    else Observed(Apply(s, steps[0]), steps[1..], key, Observe(s, steps[0], key, seen))
  }

  /** Every scan of the row sees at least the bars of its last scan. */
  ghost predicate ScansGrow(s: State, steps: seq<Step>, key: RowKey, seen: Seen)
    requires Schedulable(s, steps)
    decreases steps
  {
    steps != [] ==>
      && (ScansRow(s, steps[0], key) ==> seen.bars <= steps[0].bars)
      && ScansGrow(Apply(s, steps[0]), steps[1..], key, Observe(s, steps[0], key, seen))
  }

  /** The row holds this position, which nobody has touched yet in `rec`. */
  predicate Holds(rows: Table, key: RowKey, rec: Monitored) {
    && key in rows && KeyOfRec(rec) == key && rec.entryTouchedAt.None?
    && rows[key].entryPrice == Some(rec.entryPrice) && rows[key].entryTime == Some(rec.entryTime)
  }

  /** What was marked and what is about to be is one scan from scratch over the last bars seen, or a
      part of it when a check was abandoned; the columns record exactly what was marked. */
  ghost predicate Tracked(s: State, key: RowKey, rec: Monitored, seen: Seen) {
    var told, scan := OfRow(s.marks, key) + PendingOf(s.watch, key), EventsFrom(rec, seen.bars, 0, false);
    && Holds(s.rows, key, rec)
    && s.rows[key].columns == UNMARKED.MarkAll(OfRow(s.marks, key))
    && told <= scan && (seen.whole ==> told == scan)
  }

  // ---- one more scan -----------------------------------------------------------------------

  lemma MarkOne(event: PriceEvent)
    ensures UNMARKED.MarkAll([event]) == UNMARKED.Mark(event.kind, event.at)
    ensures Terminal(event) ==> !UNMARKED.MarkAll([event]).Open()
    ensures !Terminal(event) ==> UNMARKED.MarkAll([event]).entryAt == Some(event.at)
  {
    assert [event][1..] == [];
    assert UNMARKED.Mark(event.kind, event.at).MarkAll([]) == UNMARKED.Mark(event.kind, event.at);
  }

  /** The marks of an open position are none, or one touch. */
  lemma OpenMarks(rec: Monitored, bars: seq<Candle>, told: seq<PriceEvent>)
    requires told <= EventsFrom(rec, bars, 0, false) && UNMARKED.MarkAll(told).Open()
    ensures told == [] || (|told| == 1 && !Terminal(told[0]))
  {
    var scan := EventsFrom(rec, bars, 0, false);
    ScanShape(rec, bars, 0, false);
    assert |told| == |scan| ==> told == scan;
    MarkedScan(rec, bars);
    if |told| == 1 {
      assert told == [told[0]];
      MarkOne(told[0]);
    }
  }

  /** A scan of more bars that starts from what was marked completes it to a scan from scratch. */
  lemma ScanCompletes(rec: Monitored, told: seq<PriceEvent>, earlier: seq<Candle>, more: seq<Candle>)
    requires told <= EventsFrom(rec, earlier, 0, false) && earlier <= more && UNMARKED.MarkAll(told).Open()
    ensures told + EventsOf(rec.(entryTouchedAt := UNMARKED.MarkAll(told).entryAt), more)
            == EventsFrom(rec, more, 0, false)
  {
    var columns := UNMARKED.MarkAll(told);
    OpenMarks(rec, earlier, told);
    ScanExtends(rec, earlier, more, 0, false);
    SameRecScan(rec, columns.entryAt, more, 0, columns.entryAt.Some?);
    if told != [] {
      assert told == [told[0]];
      MarkOne(told[0]);
      TouchOnly(rec, more, 0);
    }
  }

  // ---- every step --------------------------------------------------------------------------

  lemma OfRowSnoc(list: seq<PriceEvent>, event: PriceEvent, key: RowKey)
    ensures OfRow(list + [event], key) == OfRow(list, key) + if KeyOfEvent(event) == key then [event] else []
  {
    assert (list + [event])[..|list|] == list;
  }

  lemma ScanTracked(s: State, key: RowKey, rec: Monitored, seen: Seen, bars: seq<Candle>)
    requires Inv(s) && Enabled(s, Scan(bars)) && Tracked(s, key, rec, seen)
    requires ScansRow(s, Scan(bars), key) ==> seen.bars <= bars
    ensures Tracked(Apply(s, Scan(bars)), key, rec, Observe(s, Scan(bars), key, seen))
  {
    hide Exclusive, TableSound, EvaluationCurrent, Ledger.AlertsOnce, EventsFrom, OfRow;
    var first := s.watch.todo[0];
    var events := EventsOf(first, bars);
    assert RecCurrent(s.rows, first);
    ScanNames(first, bars, 0, first.entryTouchedAt.Some?);
    assert events != [] ==> events[0] in events;
    if KeyOfRec(first) == key {
      assert first == rec.(entryTouchedAt := s.rows[key].columns.entryAt);
      ScanCompletes(rec, OfRow(s.marks, key), seen.bars, bars);
      assert PendingOf(Apply(s, Scan(bars)).watch, key) == events;
    }
  }

  lemma MarkTracked(s: State, key: RowKey, rec: Monitored, seen: Seen)
    requires Inv(s) && Enabled(s, Mark) && Tracked(s, key, rec, seen)
    ensures Tracked(Apply(s, Mark), key, rec, seen)
  {
    hide Exclusive, TableSound, EvaluationCurrent, Ledger.AlertsOnce, EventsFrom, OfRow, TodoCurrent, Columns.Mark;
    var events, t := s.watch.events, Apply(s, Mark);
    OfRowSnoc(s.marks, events[0], key);
    assert events == [events[0]] + events[1..];
    assert forall i :: 0 <= i < |events| ==> KeyOfEvent(events[i]) == KeyOfEvent(events[0]);
    if KeyOfEvent(events[0]) == key {
      MarkAllSnoc(UNMARKED, OfRow(s.marks, key), events[0]);
      assert PendingOf(t.watch, key) == events[1..];
      assert OfRow(t.marks, key) + events[1..] == OfRow(s.marks, key) + events;
    } else {
      assert events[1..] != [] ==> KeyOfEvent(events[1..][0]) == KeyOfEvent(events[1]);
      assert PendingOf(s.watch, key) == [] && PendingOf(t.watch, key) == [];
      assert OfRow(t.marks, key) == OfRow(s.marks, key);
    }
  }

  /** Pipeline steps change neither the columns of an existing row nor the watch nor the marks. */
  lemma PipelineTracked(s: State, step: Step, key: RowKey, rec: Monitored, seen: Seen)
    requires Inv(s) && Enabled(s, step) && Tracked(s, key, rec, seen)
    requires !step.Watches()
    ensures Tracked(Apply(s, step), key, rec, seen)
  {
    hide Inv, EventsFrom, OfRow, JudgeSnap, InsertAll;
    if step.Save? {
      InsertAllKeeps(s.rows, s.PhaseOf(step.p).now, DropAnnounced(step.recs, s.PhaseOf(step.p).announced));
    }
  }

  lemma StepTracked(s: State, step: Step, key: RowKey, rec: Monitored, seen: Seen)
    requires Inv(s) && Enabled(s, step) && Tracked(s, key, rec, seen)
    requires ScansRow(s, step, key) ==> seen.bars <= step.bars
    ensures Tracked(Apply(s, step), key, rec, Observe(s, step, key, seen))
  {
    hide Inv, EventsFrom, OfRow;
    match step {
      case Scan(bars) => ScanTracked(s, key, rec, seen, bars);
      case Mark => MarkTracked(s, key, rec, seen);
      case Snapshot(_, _) =>
      case Skip =>
      case Next =>
      case Report(_) =>
      case Abandon =>
      case _ => PipelineTracked(s, step, key, rec, seen);
    }
  }

  // ---- every schedule ----------------------------------------------------------------------

  lemma {:induction false} RunTracked(s: State, steps: seq<Step>, key: RowKey, rec: Monitored, seen: Seen)
    requires Inv(s) && Schedulable(s, steps) && Tracked(s, key, rec, seen) && ScansGrow(s, steps, key, seen)
    ensures Tracked(Run(s, steps), key, rec, Observed(s, steps, key, seen))
    decreases steps
  {
    hide Inv, Tracked, Apply, Observe;
    if steps != [] {
      StepKeepsInv(s, steps[0]);
      StepTracked(s, steps[0], key, rec, seen);
      RunTracked(Apply(s, steps[0]), steps[1..], key, rec, Observe(s, steps[0], key, seen));
    }
  }

  lemma {:induction false} NoMarks(s: State, list: seq<PriceEvent>, key: RowKey)
    requires key in s.rows && s.rows[key].columns == UNMARKED && RecordedOnce(s.rows, list)
    ensures OfRow(list, key) == []
  {
    if list != [] {
      var front, last := list[..|list| - 1], list[|list| - 1];
      assert list == front + [last];
      RecordedFirst(s.rows, front, [last]);
      NoMarks(s, front, key);
      assert s.rows[KeyOfEvent(last)].columns.Of(last.kind) == Some(last.at);
    }
  }

  /** From a freshly stored row on, for every schedule of pipeline runs and price checks whose scans
      of the row see growing bars: the row's marks, with those about to be made, are the events of
      one scan from scratch over the bars last scanned; only while a check was abandoned in the
      middle of marking and the row not yet rescanned may the rest be missing. */
  lemma MarksEqualOneScan(s: State, steps: seq<Step>, key: RowKey)
    requires Inv(s) && Schedulable(s, steps) && ScansGrow(s, steps, key, NOTHING_SEEN)
    requires key in s.rows && s.rows[key].columns == UNMARKED && s.rows[key].entryPrice.Some?
             && s.rows[key].entryTime.Some?
    requires PendingOf(s.watch, key) == []
    ensures var t, seen := Run(s, steps), Observed(s, steps, key, NOTHING_SEEN);
            var marked := OfRow(t.marks, key) + PendingOf(t.watch, key);
            var scan := EventsFrom(MonitoredAt(s.rows, key), seen.bars, 0, false);
            && marked <= scan && (seen.whole ==> marked == scan)
            && key in t.rows && t.rows[key].columns == UNMARKED.MarkAll(OfRow(t.marks, key))
  {
    hide Exclusive, TableSound, EvaluationCurrent, WatchCurrent, OfRow, Apply, Observe, Schedulable;
    NoMarks(s, s.marks, key);
    var rec := MonitoredAt(s.rows, key);
    assert Tracked(s, key, rec, NOTHING_SEEN);
    RunTracked(s, steps, key, rec, NOTHING_SEEN);
  }
}
