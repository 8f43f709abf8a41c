/** What of the marks reaches a reader (src/pipeline.py, `run_price_monitor`): a check reports only when
    it has returned, and its message may be lost. */
module AlertDelivery {
  import opened Domain
  import opened PriceEvents
  import opened Rows
  import opened Ledger
  import opened Monitor
  import opened AlertHistory

  /** How the running pass ends: the schedule's first report or abandonment. */
  function PassEnd(steps: seq<Step>): Option<Step> {
    if steps == [] then None
    else if steps[0].Report? || steps[0].Abandon? then Some(steps[0])
    else PassEnd(steps[1..])
  }

  /** The row's event of this kind is on record, was not alerted, and is in no running pass. */
  ghost predicate Silent(s: State, key: RowKey, kind: Kind) {
    && key in s.rows && s.rows[key].columns.Of(kind).Some?
    && forall event <- s.Reports() :: KeyOfEvent(event) != key || event.kind != kind
  }

  lemma SilentStep(s: State, step: Step, key: RowKey, kind: Kind)
    requires Inv(s) && Enabled(s, step) && Silent(s, key, kind)
    ensures Silent(Apply(s, step), key, kind)
  {
    hide Inv, Persists, Apply, Enabled, Columns.Of;
    StepKeepsInv(s, step);
    PersistsAt(s.rows, Apply(s, step).rows, key, kind);
    ReportsChange(s, step);
    if step.Mark? {
      MarksAreNew(s);
    }
  }

  /** A step adds to the reports only by marking. */
  lemma ReportsChange(s: State, step: Step)
    requires Enabled(s, step)
    ensures step.Mark? ==> s.watch.Marking? && s.watch.events != []
    ensures forall event <- Apply(s, step).Reports() ::
              event in s.Reports() || (step.Mark? && event == s.watch.events[0])
  {
    hide JudgeSnap, EventsOf, InsertAll, DropAnnounced;
    if step.Mark? {
      assert Apply(s, step).Reports() == s.Reports() + [s.watch.events[0]];
    }
  }

  lemma MarksAreNew(s: State)
    requires Inv(s) && Enabled(s, Mark)
    ensures var event := s.watch.events[0];
            KeyOfEvent(event) in s.rows && s.rows[KeyOfEvent(event)].columns.Of(event.kind).None?
  {
    hide Exclusive, TableSound, EvaluationCurrent, Ledger.AlertsOnce;
  }

  /** An event that was marked and not sent is never sent: its column keeps every later scan quiet. */
  lemma {:induction false} SilentForever(s: State, steps: seq<Step>, key: RowKey, kind: Kind)
    requires Inv(s) && Schedulable(s, steps) && Silent(s, key, kind)
    ensures Silent(Run(s, steps), key, kind)
    decreases steps
  {
    hide Inv, Silent, Apply, Enabled;
    if steps != [] {
      StepKeepsInv(s, steps[0]);
      SilentStep(s, steps[0], key, kind);
      SilentForever(Apply(s, steps[0]), steps[1..], key, kind);
    }
  }

  lemma {:induction false} AlertsGrow(s: State, steps: seq<Step>)
    requires Schedulable(s, steps)
    ensures s.alerts <= Run(s, steps).alerts
    decreases steps
  {
    hide Enabled, JudgeSnap, EventsOf, InsertAll, DropAnnounced;
    if steps != [] {
      AlertsGrow(Apply(s, steps[0]), steps[1..]);
    }
  }

  /** Reports name each event once, so an event of the running pass is not alerted yet. */
  lemma RaisedIsNew(s: State, event: PriceEvent)
    requires Inv(s) && event in s.watch.Raised()
    ensures KeyOfEvent(event) in s.rows && s.rows[KeyOfEvent(event)].columns.Of(event.kind) == Some(event.at)
    ensures forall other <- s.alerts :: KeyOfEvent(other) != KeyOfEvent(event) || other.kind != event.kind
  {
    hide Exclusive, TableSound, EvaluationCurrent, WatchCurrent;
    var reports, raised := s.Reports(), s.watch.Raised();
    var j :| 0 <= j < |raised| && raised[j] == event;
    assert reports[|s.alerts| + j] == event;
    forall other <- s.alerts
      ensures KeyOfEvent(other) != KeyOfEvent(event) || other.kind != event.kind
    {
      var i :| 0 <= i < |s.alerts| && s.alerts[i] == other;
      assert reports[i] == other;
    }
  }

  lemma PassGoesOn(s: State, step: Step, event: PriceEvent)
    requires Enabled(s, step) && event in s.watch.Raised() && !step.Report? && !step.Abandon?
    ensures event in Apply(s, step).watch.Raised()
  {
    hide JudgeSnap, EventsOf, InsertAll, DropAnnounced;
  }

  lemma PassEnds(s: State, step: Step, event: PriceEvent)
    requires Inv(s) && Enabled(s, step) && event in s.watch.Raised() && (step.Report? || step.Abandon?)
    ensures if step == Report(true) then event in Apply(s, step).alerts
            else Silent(Apply(s, step), KeyOfEvent(event), event.kind)
  {
    hide Inv;
    RaisedIsNew(s, event);
  }

  /** An event marked in the running pass is alerted if and only if the pass returns and its message
      is delivered, whatever happens afterwards. */
  lemma {:induction false} RaisedIsAlertedIff(s: State, steps: seq<Step>, event: PriceEvent)
    requires Inv(s) && Schedulable(s, steps) && event in s.watch.Raised()
    ensures event in Run(s, steps).alerts <==> PassEnd(steps) == Some(Report(true))
    decreases steps
  {
    hide Inv, Apply, Enabled, Silent;
    if steps == [] {
      RaisedIsNew(s, event);
    } else {
      var step, rest, t := steps[0], steps[1..], Apply(s, steps[0]);
      StepKeepsInv(s, step);
      if step.Report? || step.Abandon? {
        PassEnds(s, step, event);
        AlertsGrow(t, rest);
        if step != Report(true) {
          SilentForever(t, rest, KeyOfEvent(event), event.kind);
          SilentMeans(Run(t, rest), event);
        }
      } else {
        PassGoesOn(s, step, event);
        RaisedIsAlertedIff(t, rest, event);
      }
    }
  }

  lemma SilentMeans(s: State, event: PriceEvent)
    ensures Silent(s, KeyOfEvent(event), event.kind) ==> event !in s.alerts
  {
    assert event in s.alerts ==> event in s.Reports();
  }

  /** The same for a mark anywhere in a schedule. The column is written either way: it tells that the
      event happened, not that anybody heard of it. */
  lemma MarkedIsAlertedIff(s: State, first: seq<Step>, rest: seq<Step>)
    requires Inv(s) && Schedulable(s, first) && Enabled(Run(s, first), Mark)
    requires Schedulable(Apply(Run(s, first), Mark), rest)
    ensures Schedulable(s, first + [Mark] + rest)
    ensures var event, t := Run(s, first).watch.events[0], Run(s, first + [Mark] + rest);
            && KeyOfEvent(event) in t.rows && t.rows[KeyOfEvent(event)].columns.Of(event.kind) == Some(event.at)
            && (event in t.alerts <==> PassEnd(rest) == Some(Report(true)))
  {
    hide Inv, Persists, Apply;
    var before := Run(s, first);
    var event := before.watch.events[0];
    RunSnoc(s, first, Mark);
    var marked := Run(s, first + [Mark]);
    RunAppend(s, first + [Mark], rest);
    LedgerSafety(s, first + [Mark]);
    LedgerSafety(marked, rest);
    MarkRaises(before);
    RaisedIsNew(marked, event);
    RaisedIsAlertedIff(marked, rest, event);
    PersistsAt(marked.rows, Run(marked, rest).rows, KeyOfEvent(event), event.kind);
  }

  lemma MarkRaises(s: State)
    ensures Enabled(s, Mark) ==> s.watch.events[0] in Apply(s, Mark).watch.Raised()
  {
  }

  lemma PersistsAt(before: Table, after: Table, key: RowKey, kind: Kind)
    ensures Persists(before, after) && key in before && before[key].columns.Of(kind).Some? ==>
              key in after && after[key].columns.Of(kind) == before[key].columns.Of(kind)
  {
  }

  /** No pass that marked something was abandoned, and no message was lost. */
  ghost predicate NothingLost(s: State, steps: seq<Step>)
    requires Schedulable(s, steps)
    decreases steps
  {
    steps != [] ==>
      && (steps[0] == Abandon || steps[0] == Report(false) ==> s.watch.Raised() == [])
      && NothingLost(Apply(s, steps[0]), steps[1..])
  }

  lemma {:induction false} ReportsAreMarks(s: State, steps: seq<Step>)
    requires Schedulable(s, steps) && NothingLost(s, steps) && s.Reports() == s.marks
    ensures Run(s, steps).Reports() == Run(s, steps).marks
    decreases steps
  {
    hide JudgeSnap, EventsOf, InsertAll, DropAnnounced;
    if steps != [] {
      var t := Apply(s, steps[0]);
      assert t.Reports() == t.marks by {
        if steps[0].Mark? {
          assert t.Reports() == s.Reports() + [s.watch.events[0]];
        }
      }
      ReportsAreMarks(t, steps[1..]);
    }
  }

  /** When nothing is lost the alerts of a row, with those the running pass still sends, are one scan
      from scratch over the bars last scanned. */
  lemma AlertsEqualOneScan(s: State, steps: seq<Step>, key: RowKey)
    requires Inv(s) && Schedulable(s, steps) && ScansGrow(s, steps, key, NOTHING_SEEN)
    requires NothingLost(s, steps) && s.Reports() == s.marks
    requires key in s.rows && s.rows[key].columns == UNMARKED && s.rows[key].entryPrice.Some?
             && s.rows[key].entryTime.Some?
    requires PendingOf(s.watch, key) == []
    ensures var t, seen := Run(s, steps), Observed(s, steps, key, NOTHING_SEEN);
            var heard := OfRow(t.Reports(), key) + PendingOf(t.watch, key);
            var scan := EventsFrom(MonitoredAt(s.rows, key), seen.bars, 0, false);
            heard <= scan && (seen.whole ==> heard == scan)
  {
    hide Inv, OfRow, Apply, Observe, Schedulable, EventsFrom, PendingOf, NothingLost;
    MarksEqualOneScan(s, steps, key);
    ReportsAreMarks(s, steps);
  }
}
