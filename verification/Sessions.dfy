/** The life of one store: pipeline runs and price checks, one call after the other (src/pipeline.py).
    Each call returns a schedule of its own; together they are one schedule of the ledger, so the
    ledger's theorems speak of them. */
module Sessions {
  import opened Domain
  import opened PriceEvents
  import opened Exchange
  import opened Rows
  import opened Ledger
  import opened Announcements
  import opened Monitor
  import opened Pipeline

  // ---- a schedule on top of an earlier history -----------------------------------------------

  ghost predicate AllIdle(pipes: map<nat, Phase>) {
    forall p <- pipes :: pipes[p].Idle?
  }

  /** The state s of a later call, with what was told and marked before it. */
  function Onto(base: State, s: State): State {
    s.(pipes := base.pipes + s.pipes, marks := base.marks + s.marks, alerts := base.alerts + s.alerts,
       told := base.told + s.told)
  }

  lemma OntoPhase(base: State, s: State, p: nat)
    ensures AllIdle(base.pipes) ==> Onto(base, s).PhaseOf(p) == s.PhaseOf(p)
  {
  }

  lemma OntoEnter(base: State, s: State, p: nat, phase: Phase)
    ensures Onto(base, s).Enter(p, phase) == Onto(base, s.Enter(p, phase))
  {
    assert (base.pipes + s.pipes)[p := phase] == base.pipes + s.pipes[p := phase];
  }

  lemma OntoEnabled(base: State, s: State, step: Step)
    requires AllIdle(base.pipes)
    ensures Enabled(Onto(base, s), step) <==> Enabled(s, step)
  {
    hide Lists, Monitorable, Unevaluated, Expired;
    if !step.Watches() {
      OntoPhase(base, s, step.p);
    }
  }

  lemma OntoWatches(base: State, s: State, step: Step)
    requires AllIdle(base.pipes) && Enabled(s, step) && Enabled(Onto(base, s), step) && step.Watches()
    ensures Apply(Onto(base, s), step) == Onto(base, Apply(s, step))
  {
    hide MarkRow, EventsOf;
    if step.Mark? {
      assert base.marks + s.marks + [s.watch.events[0]] == base.marks + (s.marks + [s.watch.events[0]]);
    }
    if step.Report? {
      assert base.alerts + s.alerts + s.watch.raised == base.alerts + (s.alerts + s.watch.raised);
    }
  }

  lemma OntoRuns(base: State, s: State, step: Step)
    requires AllIdle(base.pipes) && Enabled(s, step) && Enabled(Onto(base, s), step) && !step.Watches()
    ensures Apply(Onto(base, s), step) == Onto(base, Apply(s, step))
  {
    hide InsertAll, DropAnnounced, EntriesOf, JudgeSnap, RecordRow, Announced;
    OntoPhase(base, s, step.p);
    var t := Apply(s, step);
    if t.pipes != s.pipes {
      assert t.pipes == s.pipes[step.p := t.PhaseOf(step.p)];
      OntoEnter(base, s, step.p, t.PhaseOf(step.p));
    }
    if step.Notify? {
      var entries := EntriesOf(s.PhaseOf(step.p).news);
      assert base.told + s.told + entries == base.told + (s.told + entries);
    }
  }

  /** The history before a call changes nothing in it. */
  lemma {:induction false} OntoRun(base: State, s: State, steps: seq<Step>)
    requires AllIdle(base.pipes) && Schedulable(s, steps)
    ensures Schedulable(Onto(base, s), steps) && Run(Onto(base, s), steps) == Onto(base, Run(s, steps))
    ensures TimelyRun(s, steps) ==> TimelyRun(Onto(base, s), steps)
    decreases steps
  {
    hide Apply, Enabled, Onto, AllIdle, Current;
    if steps != [] {
      OntoEnabled(base, s, steps[0]);
      if steps[0].Watches() {
        OntoWatches(base, s, steps[0]);
      } else {
        OntoRuns(base, s, steps[0]);
        OntoPhase(base, s, steps[0].p);
      }
      OntoRun(base, Apply(s, steps[0]), steps[1..]);
    }
  }

  // ---- one call --------------------------------------------------------------------------------

  /** What one call made of the store, what it sent and marked, and its schedule. */
  datatype Call = Call(
    before: Table,
    runsBefore: set<Time>,
    after: Table,
    runsAfter: set<Time>,
    told: seq<EntryKey>,
    alerts: seq<PriceEvent>,
    marks: seq<PriceEvent>,
    steps: seq<Step>)
  {
    ghost predicate Valid() {
      && Schedulable(Calm(before, runsBefore), steps) && TimelyRun(Calm(before, runsBefore), steps)
      && var end := Run(Calm(before, runsBefore), steps);
         && AllIdle(end.pipes)
         && end == Calm(after, runsAfter).(pipes := end.pipes, told := told, alerts := alerts, marks := marks)
    }
  }

  /** Every caller past its beginning reads this clock. */
  ghost predicate AtClock(s: State, now: Time) {
    forall p <- s.pipes :: !s.pipes[p].Idle? ==> s.pipes[p].now == now
  }

  lemma ClockStep(s: State, step: Step, now: Time, recs: seq<Recommendation>)
    requires Enabled(s, step) && AtClock(s, now) && Current(recs, now)
    requires !step.Watches() && (step.Begin? ==> step == Begin(0, now)) && (step.Save? ==> step == Save(0, recs))
    ensures AtClock(Apply(s, step), now) && Timely(s, step)
  {
    hide InsertAll, DropAnnounced, EntriesOf, JudgeSnap, Current;
  }

  lemma {:induction false} OwnStepsAreTimely(s: State, steps: seq<Step>, now: Time, recs: seq<Recommendation>)
    requires Schedulable(s, steps) && OwnSteps(steps, now, recs) && AtClock(s, now) && Current(recs, now)
    ensures TimelyRun(s, steps)
    decreases steps
  {
    hide Apply, Enabled, AtClock, Current, Timely;
    if steps != [] {
      ClockStep(s, steps[0], now, recs);
      OwnStepsAreTimely(Apply(s, steps[0]), steps[1..], now, recs);
    }
  }

  lemma {:induction false} WatchingIsTimely(s: State, steps: seq<Step>)
    requires Schedulable(s, steps) && forall step <- steps :: step.Watches()
    ensures TimelyRun(s, steps)
    decreases steps
  {
    hide Apply, Enabled;
    if steps != [] {
      assert steps[0].Watches();
      WatchingIsTimely(Apply(s, steps[0]), steps[1..]);
    }
  }

  /** A pipeline run over current lists is a call. */
  lemma RunIsCall(result: RunResult, before: Table, runsBefore: set<Time>, after: Table, runsAfter: set<Time>,
                  now: Time,
                  recs: seq<Recommendation>, candles: map<Series, seq<Candle>>, steps: seq<Step>)
    requires Ran(result, before, runsBefore, after, runsAfter, now, recs, candles, steps) && Current(recs, now)
    ensures Call(before, runsBefore, after, runsAfter, result.Told(), [], [], steps).Valid()
  {
    hide Schedulable, Run, TimelyRun, Current, Progress, AllSettled, InsertAll, OwnSteps, EntriesOf;
    OwnStepsAreTimely(Calm(before, runsBefore), steps, now, recs);
  }

  /** A price check is a call. */
  lemma CheckIsCall(before: Table, after: Table, runs: set<Time>, marked: seq<PriceEvent>, delivered: bool,
                    steps: seq<Step>)
    requires Schedulable(Calm(before, runs), steps) && forall step <- steps :: step.Watches()
    requires Run(Calm(before, runs), steps)
             == Calm(after, runs).(marks := marked, alerts := if delivered then marked else [])
    ensures Call(before, runs, after, runs, [], if delivered then marked else [], marked, steps).Valid()
  {
    hide Schedulable, Run, TimelyRun;
    WatchingIsTimely(Calm(before, runs), steps);
  }

  // ---- many calls --------------------------------------------------------------------------------

  /** Each call starts from the store the last one left. */
  ghost predicate InOrder(calls: seq<Call>) {
    && (forall c <- calls :: c.Valid())
    && (forall i :: 0 < i < |calls| ==>
          calls[i].before == calls[i - 1].after && calls[i].runsBefore == calls[i - 1].runsAfter)
  }

  function TellsOf(calls: seq<Call>): seq<EntryKey> {
    if calls == [] then [] else TellsOf(calls[..|calls| - 1]) + calls[|calls| - 1].told
  }

  function AlertsIn(calls: seq<Call>): seq<PriceEvent> {
    if calls == [] then [] else AlertsIn(calls[..|calls| - 1]) + calls[|calls| - 1].alerts
  }

  lemma TimelyAppend(s: State, first: seq<Step>, second: seq<Step>)
    requires Schedulable(s, first) && Schedulable(Run(s, first), second)
    requires TimelyRun(s, first) && TimelyRun(Run(s, first), second)
    ensures Schedulable(s, first + second) && TimelyRun(s, first + second)
    decreases first
  {
    hide Apply, Enabled, Timely;
    RunAppend(s, first, second);
    if first == [] {
      assert first + second == second;
    } else {
      assert (first + second)[1..] == first[1..] + second && (first + second)[0] == first[0];
      TimelyAppend(Apply(s, first[0]), first[1..], second);
    }
  }

  /** Calls in order are one timely schedule of the ledger. */
  lemma {:induction false} CallsAreOneSchedule(calls: seq<Call>) returns (steps: seq<Step>)
    requires calls != [] && InOrder(calls)
    ensures var start := Calm(calls[0].before, calls[0].runsBefore);
            && Schedulable(start, steps) && TimelyRun(start, steps)
            && var end, last := Run(start, steps), calls[|calls| - 1];
               && AllIdle(end.pipes) && end.lock.None? && end.watch.Resting?
               && end.rows == last.after && end.runs == last.runsAfter
               && end.told == TellsOf(calls) && end.alerts == AlertsIn(calls)
  {
    hide Schedulable, Run, TimelyRun;
    var front, last := calls[..|calls| - 1], calls[|calls| - 1];
    assert last.Valid();
    var start := Calm(calls[0].before, calls[0].runsBefore);
    if front == [] {
      steps := last.steps;
      assert TellsOf(front) == [] && AlertsIn(front) == [];
    } else {
      OrderFront(calls);
      var first := CallsAreOneSchedule(front);
      var base := Run(start, first);
      assert Onto(base, Calm(last.before, last.runsBefore)) == base;
      OntoRun(base, Calm(last.before, last.runsBefore), last.steps);
      RunAppend(start, first, last.steps);
      TimelyAppend(start, first, last.steps);
      steps := first + last.steps;
    }
  }

  lemma OrderFront(calls: seq<Call>)
    requires calls != [] && InOrder(calls)
    ensures InOrder(calls[..|calls| - 1])
  {
    hide Call.Valid;
  }

  /** Over the life of a store that starts empty, whatever runs and checks are made of it: no entry is
      announced twice, every announced entry has exactly one row, no alert repeats, and every alert is
      on record. */
  lemma CallsReportOnce(calls: seq<Call>)
    requires calls != [] && InOrder(calls) && calls[0].before == map[] && calls[0].runsBefore == {}
    ensures var rows, told, alerts := calls[|calls| - 1].after, TellsOf(calls), AlertsIn(calls);
            && NoRepeats(told)
            && (forall entry <- told ::
                  exists key <- rows :: Stands(rows, key, entry) && forall other :: Stands(rows, other, entry) ==>
                    other == key)
            && (forall i, j :: 0 <= i < j < |alerts| ==>
                  KeyOfEvent(alerts[i]) != KeyOfEvent(alerts[j]) || alerts[i].kind != alerts[j].kind)
            && (forall event <- alerts ::
                  KeyOfEvent(event) in rows && rows[KeyOfEvent(event)].columns.Of(event.kind) == Some(event.at))
  {
    hide Schedulable, Run, TimelyRun, InOrder, Inv, ToldInv;
    var steps := CallsAreOneSchedule(calls);
    assert Calm(map[], {}) == EMPTY;
    EmptyLedgerStartsWell();
    AnnouncedAtMostOnce(EMPTY, steps);
    LedgerSafetyFromEmpty(steps);
  }
}
