/** An alert that is lost, step by step from an empty store (src/monitor.py, src/pipeline.py). */
module LostAlert {
  import opened Domain
  import opened Tracks
  import opened PriceEvents
  import opened Rows
  import opened Ledger
  import opened Monitor
  import opened Announcements
  import opened Pipeline
  import opened AlertDelivery

  const LOST_ENTRY := Recommendation("BTCUSDT", 10, 5, 0.5, 0.3, 0.01, Some(0), Some(100.0), None, DAY_TRACK.key)
  const LOST_KEY := RowKey(0, "BTCUSDT", DAY_TRACK.key)
  const LOST_ROWS: Table := map[LOST_KEY := NewRow(LOST_ENTRY)]
  const LOST_BAR := Candle("BTCUSDT", M1, 0, 101.0, 103.0, 101.0, 103.0, 1.0)
  const LOST_EVENT := PriceEvent("BTCUSDT", 0, TargetHit, 102.0, 0, DAY_TRACK.key)

  /** A first run stores one recommendation of the day track, entered at 100. */
  lemma StoredByARun() returns (steps: seq<Step>)
    ensures Schedulable(EMPTY, steps) && Run(EMPTY, steps) == Calm(LOST_ROWS, {0}).Enter(0, Idle)
  {
    hide Schedulable, Run, Apply, Enabled, InsertAll, DropAnnounced;
    BeginSteps(EMPTY, 0);
    steps := [Begin(0, 0), ReadAnnounced(0)];
    SaveStep(Run(EMPTY, steps), 0, [LOST_ENTRY], {});
    RunSnoc(EMPTY, steps, Save(0, [LOST_ENTRY]));
    steps := steps + [Save(0, [LOST_ENTRY])];
    FirstRow();
    steps := Leave(EMPTY, steps);
  }

  lemma FirstRow()
    ensures Announced(map[], 0 - ANNOUNCE_MEMORY) == {}
    ensures DropAnnounced([LOST_ENTRY], {}) == [LOST_ENTRY]
    ensures InsertAll(map[], 0, [LOST_ENTRY]) == LOST_ROWS
  {
    assert [LOST_ENTRY][..0] == [];
    assert DropAnnounced([], {}) == [];
    assert InsertAll(map[], 0, []) == map[];
  }

  lemma TargetIsMet()
    ensures MonitoredAt(LOST_ROWS, LOST_KEY).Target() == 102.0 && MonitoredAt(LOST_ROWS, LOST_KEY).Stop() == 98.0
    ensures EventsOf(MonitoredAt(LOST_ROWS, LOST_KEY), [LOST_BAR]) == [LOST_EVENT]
    ensures !Expired(MonitoredAt(LOST_ROWS, LOST_KEY), 0)
  {
    var rec := MonitoredAt(LOST_ROWS, LOST_KEY);
    assert rec.Decisive(LOST_BAR) && rec.Closing(LOST_BAR) == LOST_EVENT;
  }

  /** The pass that marks the target and ends without a report. */
  lemma MarkedAndLost(s: State) returns (steps: seq<Step>)
    requires s.rows == LOST_ROWS && s.watch.Resting?
    ensures Schedulable(s, steps) && Abandon in steps
    ensures Run(s, steps) == s.(rows := MarkRow(LOST_ROWS, LOST_KEY, TargetHit, 0), marks := s.marks + [LOST_EVENT])
  {
    hide Schedulable, Run, Apply, Enabled, MarkRow, EventsOf, Expired;
    TargetIsMet();
    var rec := MonitoredAt(LOST_ROWS, LOST_KEY);
    assert LOST_KEY in Monitorable(LOST_ROWS, 0 - MAX_HOLD);
    SnapshotStep(s, 0, [LOST_KEY], [rec]);
    steps := [Snapshot(0, [LOST_KEY])];
    var watching := Run(s, steps);
    ScanStep(watching, [LOST_BAR]);
    RunSnoc(s, steps, Scan([LOST_BAR]));
    steps := steps + [Scan([LOST_BAR])];
    MarkStep(watching, LOST_ROWS, [LOST_EVENT], 0);
    RunSnoc(s, steps, Mark);
    steps := steps + [Mark];
    AbandonStep(Run(s, steps));
    RunSnoc(s, steps, Abandon);
    steps := steps + [Abandon];
  }

  /** An alert is lost for good: the target is met and on record, nobody was told, and whatever
      happens next nobody is. */
  lemma LostAlertReached() returns (steps: seq<Step>)
    ensures Schedulable(EMPTY, steps)
    ensures var t := Run(EMPTY, steps);
            && LOST_KEY in t.rows && t.rows[LOST_KEY].columns.targetAt == Some(0)
            && t.marks == [LOST_EVENT] && t.alerts == []
            && forall more :: Schedulable(t, more) ==> Silent(Run(t, more), LOST_KEY, TargetHit)
  {
    hide Schedulable, Run, Apply, Enabled, Inv, ToldInv, Silent;
    var first := StoredByARun();
    var last := MarkedAndLost(Run(EMPTY, first));
    RunAppend(EMPTY, first, last);
    steps := first + last;
    var t := Run(EMPTY, steps);
    EmptyLedgerStartsWell();
    LedgerSafety(EMPTY, steps);
    LostIsSilent(t);
    forall more | Schedulable(t, more)
      ensures Silent(Run(t, more), LOST_KEY, TargetHit)
    {
      SilentForever(t, more, LOST_KEY, TargetHit);
    }
  }

  lemma LostIsSilent(t: State)
    requires t.rows == MarkRow(LOST_ROWS, LOST_KEY, TargetHit, 0) && t.alerts == [] && t.watch.Resting?
    ensures LOST_KEY in t.rows && t.rows[LOST_KEY].columns.targetAt == Some(0) && Silent(t, LOST_KEY, TargetHit)
  {
  }
}
