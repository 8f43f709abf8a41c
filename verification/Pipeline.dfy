/** One pipeline run against the store: lock, suppression, saving, notification and outcome
    evaluation in the source's order (src/pipeline.py). */
module Pipeline {
  import opened Domain
  import opened Exchange
  import opened Rows
  import opened Ledger
  import opened Tracks
  import opened PriceEvents
  import opened TrackTable
  import opened Store
  import opened Monitor

  function HalfHours(market: string): Series { Series(market, M30) }

  // ---- the closing price at a deadline -----------------------------------------------------

  /** Close of the last bar already closed at `moment`. */
  function LastClose(candles: seq<Candle>, moment: Time): Option<real> {
    var count := CountUpTo(CloseTimes(candles), moment);
    if count == 0 then None else Some(candles[count - 1].close)
  }

  /** `_price_at`: scan until a bar closes after the moment. */
  method PriceAt(store: DataStore, market: string, moment: Time) returns (closing: Option<real>)
    requires NonDescending(CloseTimes(store.Stored(HalfHours(market))))
    ensures closing == LastClose(store.Stored(HalfHours(market)), moment)
  {
    hide CountUpTo, Length;
    var candles := store.Stored(HalfHours(market));
    closing := None;
    ghost var times := CloseTimes(candles);
    for k := 0 to |candles|
      invariant forall j :: 0 <= j < k ==> times[j] <= moment
      invariant closing == if k == 0 then None else Some(candles[k - 1].close)
    {
      if CloseTime(candles[k]) > moment {
        assert forall j :: k <= j < |times| ==> times[k] <= times[j];
        CountUpToIs(times, moment, k);
        return;
      }
      closing := Some(candles[k].close);
    }
    CountUpToIs(times, moment, |candles|);
  }

  // ---- outcomes ------------------------------------------------------------------------------

  /** The verdict for a row that still waits for one, from the monitor's record. */
  function Verdict(row: Row, key: RowKey, now: Time, candles: seq<Candle>): Option<Outcome>
    requires row.entryTime.Some?
  {
    JudgeSnap(Snap(key, row.entryTime.value, row.entryPrice, row.columns.targetAt, row.columns.stopAt), now,
              LastClose(candles, Deadline(key.track, row.entryTime.value)))
  }

  /** A row after evaluation: judged at most once, only if it was waiting, everything else kept. */
  ghost predicate Evaluated(before: Table, after: Table, key: RowKey, now: Time, candles: map<Series, seq<Candle>>) {
    && key in before && key in after
    && after[key] == if before[key].entryTime.Some? && before[key].outcome.None? then
                       before[key].(outcome := Verdict(before[key], key, now, StoredIn(candles, HalfHours(key.market))))
                     else before[key]
  }

  /** A row after evaluation, in the rules' own numbers. A marked target pays the track's target and a
      marked stop its negated stop, at any time; an unmarked row is settled exactly when its own hold
      has ended, a half-hour bar had closed by then and its entry price is present and not zero, and
      then at the close of the last such bar. */
  ghost predicate Settled(before: Row, after: Row, track: string, now: Time, candles: seq<Candle>) {
    && after == before.(outcome := after.outcome)
    && (before.entryTime.None? || before.outcome.Some? ==> after.outcome == before.outcome)
    && (before.entryTime.Some? && before.outcome.None? ==>
          if before.columns.targetAt.Some? then after.outcome == Some(Outcome(true, TargetOf(track), now))
          else if before.columns.stopAt.Some? then after.outcome == Some(Outcome(false, -StopOf(track), now))
          else SettledByTime(before, after, now, before.entryTime.value + HoldOf(track), candles))
  }

  ghost predicate SettledByTime(before: Row, after: Row, now: Time, deadline: Time, candles: seq<Candle>) {
    && (after.outcome.Some? <==>
          && deadline <= now && before.entryPrice.Some? && before.entryPrice.value != 0.0
          && exists k :: 0 <= k < |candles| && CloseTime(candles[k]) <= deadline)
    && (after.outcome.Some? ==>
          && before.entryPrice.Some?
          && !after.outcome.value.reached && after.outcome.value.at == now
          && exists k ::
               && 0 <= k < |candles| && IsLatest(CloseTimes(candles), deadline, k)
               && after.outcome.value.realized * before.entryPrice.value == candles[k].close - before.entryPrice.value)
  }

  lemma Gain(price: real, entry: real)
    requires entry != 0.0
    ensures (price / entry - 1.0) * entry == price - entry
  {
  }

  /** The last close at a moment is that of the last bar closed by then. */
  lemma LastCloseIs(candles: seq<Candle>, moment: Time)
    requires NonDescending(CloseTimes(candles))
    ensures LastClose(candles, moment).Some? <==> exists k :: 0 <= k < |candles| && CloseTime(candles[k]) <= moment
    ensures LastClose(candles, moment).Some? ==>
              exists k ::
                && 0 <= k < |candles| && IsLatest(CloseTimes(candles), moment, k)
                && candles[k].close == LastClose(candles, moment).value
  {
    hide CountUpTo, Length;
    var times, count := CloseTimes(candles), CountUpTo(CloseTimes(candles), moment);
    CountUpToIs(times, moment, count);
    if count > 0 {
      LatestIs(times, moment, count - 1);
      assert times[count - 1] == CloseTime(candles[count - 1]);
    } else {
      assert forall k :: 0 <= k < |candles| ==> moment < times[k];
    }
  }

  lemma EvaluatedIsSettled(before: Table, after: Table, key: RowKey, now: Time, candles: map<Series, seq<Candle>>)
    requires Evaluated(before, after, key, now, candles) && Ordered(candles)
    ensures Settled(before[key], after[key], key.track, now, StoredIn(candles, Series(key.market, M30)))
  {
    hide LastClose, IsLatest, NonDescending, Deadline, HoldOf, RulesFor, TargetOf, StopOf;
    var row, bars := before[key], StoredIn(candles, Series(key.market, M30));
    if row.entryTime.Some? {
      RulesAre(key.track);
      DeadlineIs(key.track, row.entryTime.value);
      OrderedSeries(candles, Series(key.market, M30));
      var deadline := row.entryTime.value + HoldOf(key.track);
      LastCloseIs(bars, deadline);
      if row.entryPrice.Some? && row.entryPrice.value != 0.0 && LastClose(bars, deadline).Some? {
        Gain(LastClose(bars, deadline).value, row.entryPrice.value);
      }
    }
  }

  /** Every row is settled. */
  ghost predicate AllSettled(before: Table, after: Table, now: Time, candles: map<Series, seq<Candle>>) {
    && after.Keys == before.Keys
    && forall key <- before ::
         Settled(before[key], after[key], key.track, now, StoredIn(candles, Series(key.market, M30)))
  }

  lemma ProgressSettles(before: Table, after: Table, now: Time, candles: map<Series, seq<Candle>>)
    requires Progress(before, after, [], now, candles) && Ordered(candles)
    ensures AllSettled(before, after, now, candles)
  {
    hide Settled, Evaluated, Ordered;
    forall key <- before
      ensures Settled(before[key], after[key], key.track, now, StoredIn(candles, Series(key.market, M30)))
    {
      assert Evaluated(before, after, key, now, candles);
      EvaluatedIsSettled(before, after, key, now, candles);
    }
  }

  ghost predicate Ordered(candles: map<Series, seq<Candle>>) {
    forall s <- candles :: NonDescending(CloseTimes(candles[s]))
  }

  lemma OrderedSeries(candles: map<Series, seq<Candle>>, s: Series)
    ensures Ordered(candles) ==> NonDescending(CloseTimes(StoredIn(candles, s)))
  {
  }

  /** All rows but those in `left` are evaluated; those are untouched. */
  ghost predicate Progress(before: Table, rows: Table, left: seq<RowKey>, now: Time,
                           candles: map<Series, seq<Candle>>) {
    && rows.Keys == before.Keys
    && forall key <- before :: if key in left then rows[key] == before[key]
      else Evaluated(before, rows, key, now, candles)
  }

  lemma ProgressStart(before: Table, keys: seq<RowKey>, now: Time, candles: map<Series, seq<Candle>>)
    requires Lists(keys, Unevaluated(before))
    ensures Progress(before, before, keys, now, candles)
  {
  }

  lemma ProgressStep(
    before: Table, rows: Table, key: RowKey, rest: seq<RowKey>, now: Time, candles: map<Series, seq<Candle>>,
    outcome: Option<Outcome>)
    requires Progress(before, rows, [key] + rest, now, candles) && key !in rest
    requires key in before && before[key].outcome.None? && before[key].entryTime.Some?
    requires outcome == Verdict(before[key], key, now, StoredIn(candles, HalfHours(key.market)))
    ensures rows[key] == before[key]
    ensures Progress(before, if outcome.Some? then RecordRow(rows, key, outcome.value) else rows, rest, now, candles)
  {
    hide Verdict;
    assert key in [key] + rest;
    assert forall k :: k in [key] + rest <==> k == key || k in rest;
    assert outcome.None? ==> before[key].(outcome := outcome) == before[key];
  }

  /** `evaluate_pending_outcomes` by pipeline p, as ledger steps after `done`. */
  method EvaluatePendingOutcomes(store: DataStore, now: Time, ghost p: nat, ghost start: State, ghost done: seq<Step>)
    returns (ghost steps: seq<Step>)
    requires Ordered(store.candles)
    requires Schedulable(start, done) && Run(start, done).PhaseOf(p) == Told(now) && Run(start, done).rows == store.rows
    modifies store`rows
    ensures Schedulable(start, steps)
    ensures forall step <- steps :: step in done || step.ReadUnevaluated? || step.Judge?
    ensures Run(start, steps) == Run(start, done).(rows := store.rows).Enter(p, Evaluating(now, []))
    ensures Progress(old(store.rows), store.rows, [], now, store.candles)
    ensures AllSettled(old(store.rows), store.rows, now, store.candles)
  {
    hide Apply, Enabled, Schedulable, Run, RecordRow, Progress, AllSettled, JudgeSnap, LastClose, Ordered,
      NonDescending;
    ghost var base, before := Run(start, done), store.rows;
    var keys, snaps := store.GetUnevaluated();
    ReadStep(base, p, now, keys, snaps);
    RunSnoc(start, done, ReadUnevaluated(p, keys));
    ProgressStart(before, keys, now, store.candles);
    steps := done + [ReadUnevaluated(p, keys)];
    for i := 0 to |snaps|
      invariant Schedulable(start, steps)
      invariant forall step <- steps :: step in done || step.ReadUnevaluated? || step.Judge?
      invariant Run(start, steps) == base.(rows := store.rows).Enter(p, Evaluating(now, snaps[i..]))
      invariant Progress(before, store.rows, keys[i..], now, store.candles)
    {
      var snap := snaps[i];
      assert keys[i..] == [keys[i]] + keys[i + 1..] && keys[i] in Unevaluated(before);
      assert snaps[i..][0] == snap && snaps[i..][1..] == snaps[i + 1..];
      OrderedSeries(store.candles, HalfHours(snap.key.market));
      var closing := PriceAt(store, snap.key.market, Deadline(snap.key.track, snap.entryTime));
      var outcome := JudgeSnap(snap, now, closing);
      ghost var rows := store.rows;
      ProgressStep(before, rows, keys[i], keys[i + 1..], now, store.candles, outcome);
      JudgeStep(Run(start, steps), p, now, closing);
      RunSnoc(start, steps, Judge(p, closing));
      steps := steps + [Judge(p, closing)];
      if outcome.Some? {
        store.RecordTrackOutcome(snap.key, outcome.value);
      }
      ReEnter(base, rows, store.rows, p, Evaluating(now, snaps[i..]), Evaluating(now, snaps[i + 1..]));
    }
    assert snaps[|snaps|..] == [] && keys[|keys|..] == [];
    ProgressSettles(before, store.rows, now, store.candles);
  }

  lemma ReEnter(s: State, rows: Table, after: Table, p: nat, first: Phase, second: Phase)
    ensures s.(rows := rows).Enter(p, first).(rows := after).Enter(p, second) == s.(rows := after).Enter(p, second)
  {
  }

  lemma ReadStep(s: State, p: nat, now: Time, keys: seq<RowKey>, snaps: seq<Snap>)
    requires s.PhaseOf(p) == Told(now) && Lists(keys, Unevaluated(s.rows))
    requires |snaps| == |keys| && forall i :: 0 <= i < |keys| ==> snaps[i] == SnapAt(s.rows, keys[i])
    ensures Enabled(s, ReadUnevaluated(p, keys))
    ensures Apply(s, ReadUnevaluated(p, keys)) == s.Enter(p, Evaluating(now, snaps))
  {
    assert Apply(s, ReadUnevaluated(p, keys)).pipes[p].pending == snaps;
  }

  lemma JudgeStep(s: State, p: nat, now: Time, closing: Option<real>)
    requires s.PhaseOf(p).Evaluating? && s.PhaseOf(p).now == now && s.PhaseOf(p).pending != []
    ensures Enabled(s, Judge(p, closing))
    ensures var pending := s.PhaseOf(p).pending;
            var outcome := JudgeSnap(pending[0], now, closing);
            Apply(s, Judge(p, closing))
            == s.(rows := if outcome.Some? then RecordRow(s.rows, pending[0].key, outcome.value) else s.rows)
                .Enter(p, Evaluating(now, pending[1..]))
  {
  }

  // ---- the run -------------------------------------------------------------------------------

  /** How a call ends. `Broken` and `Unjudged` are exceptions: before the run was saved, and after it
      was saved and announced but before the rows to judge were read. */
  datatype RunResult =
    | AlreadyRunning
    | RunTimeRepeated
    | Broken
    | Unjudged(news: seq<Recommendation>, delivered: bool)
    | Completed(news: seq<Recommendation>, delivered: bool)
  {
    predicate Saved() { Unjudged? || Completed? }

    /** The entries that reached a reader. */
    function Told(): seq<EntryKey> {
      if Saved() && delivered then EntriesOf(news) else []
    }
  }

  function Flatten(lists: seq<seq<Recommendation>>): seq<Recommendation> {
    if lists == [] then [] else Flatten(lists[..|lists| - 1]) + lists[|lists| - 1]
  }

  /** Filtering each list and joining them is filtering the joined list. */
  lemma {:induction false} DropConcat(a: seq<Recommendation>, b: seq<Recommendation>, announced: set<EntryKey>)
    ensures DropAnnounced(a + b, announced) == DropAnnounced(a, announced) + DropAnnounced(b, announced)
  {
    if b == [] {
      assert a + b == a;
    } else {
      var front := b[..|b| - 1];
      assert (a + b)[..|a + b| - 1] == a + front && (a + b)[|a + b| - 1] == b[|b| - 1];
      DropConcat(a, front, announced);
    }
  }

  class PipelineJob {
    /** The module-level lock. */
    var locked: bool

    constructor ()
      ensures !locked
    {
      locked := false;
    }

    /** `run_recommendation_pipeline`: the lock around the try block. `regime` is the regime track's
        list and `tracks` the lists of the other tracks in order. A call while the lock is held
        changes nothing; any other call is one schedule of ledger steps, and the lock is free
        again however the block ends. */
    method RunOnce(store: DataStore, now: Time, regime: seq<Recommendation>, tracks: seq<seq<Recommendation>>)
      returns (result: RunResult, ghost steps: seq<Step>)
      requires Ordered(store.candles)
      modifies this, store`rows, store`runs
      ensures locked == old(locked)
      ensures result.AlreadyRunning? <==> old(locked)
      ensures result.AlreadyRunning? ==> store.rows == old(store.rows) && store.runs == old(store.runs)
      ensures !result.AlreadyRunning? ==>
                Ran(result, old(store.rows), old(store.runs), store.rows, store.runs, now, regime + Flatten(tracks),
                    store.candles, steps)
    {
      hide Ran;
      steps := [];
      if locked {
        return AlreadyRunning, steps;
      }
      locked := true;
      result, steps := TryBlock(store, now, regime, tracks);
      locked := false;
    }
  }

  /** What a run does to the store, by its result, and the schedule of ledger steps it took. */
  ghost predicate Ran(
    result: RunResult, before: Table, runsBefore: set<Time>, after: Table, runsAfter: set<Time>, now: Time,
    recs: seq<Recommendation>, candles: map<Series, seq<Candle>>, steps: seq<Step>)
  {
    var start := Calm(before, runsBefore);
    && !result.AlreadyRunning?
    && (!result.Saved() ==> after == before && runsAfter == runsBefore)
    && (result.RunTimeRepeated? ==> now in runsBefore)
    && (result.Saved() ==>
          && now !in runsBefore && runsAfter == runsBefore + {now}
          && result.news == DropAnnounced(recs, Announced(before, now - ANNOUNCE_MEMORY)))
    && (result.Unjudged? ==> after == InsertAll(before, now, result.news))
    && (result.Completed? ==>
          var saved := InsertAll(before, now, result.news);
          Progress(saved, after, [], now, candles) && AllSettled(saved, after, now, candles))
    && Schedulable(start, steps) && OwnSteps(steps, now, recs)
    && Run(start, steps) == Calm(after, runsAfter).(told := result.Told()).Enter(0, Idle)
  }

  /** One caller's steps of one run: it begins at its clock reading and saves what it was given. */
  predicate OwnSteps(steps: seq<Step>, now: Time, recs: seq<Recommendation>) {
    forall step <- steps ::
      && !step.Watches()
      && (step.Begin? ==> step == Begin(0, now))
      && (step.Save? ==> step == Save(0, recs))
  }

  /** The try block after collection and generation. Any statement of it may raise. */
  method TryBlock(store: DataStore, now: Time, regime: seq<Recommendation>, tracks: seq<seq<Recommendation>>)
    returns (result: RunResult, ghost steps: seq<Step>)
    requires Ordered(store.candles)
    modifies store`rows, store`runs
    ensures !result.AlreadyRunning?
    ensures Ran(result, old(store.rows), old(store.runs), store.rows, store.runs, now, regime + Flatten(tracks),
                store.candles, steps)
  {
    hide Apply, Enabled, Schedulable, Run, InsertAll, DropAnnounced, Ordered, Announced, Flatten, OwnSteps, Ran;
    ghost var rows, runs, recs := store.rows, store.runs, regime + Flatten(tracks);
    ghost var start := Calm(rows, runs);
    steps := [Begin(0, now)];
    BeginStep(start, now);
    OwnBegin(now, recs);
    var raises: bool := *;
    if raises {
      steps := LeaveUnsaved(rows, runs, now, recs, store.candles, steps);
      return Broken, steps;
    }
    BeginSteps(start, now);
    steps := [Begin(0, now), ReadAnnounced(0)];
    var announced := store.GetAnnouncedEntries(now - ANNOUNCE_MEMORY);
    var news := DropEach(regime, tracks, announced);
    raises := *;
    if raises {
      steps := LeaveUnsaved(rows, runs, now, recs, store.candles, steps);
      return Broken, steps;
    }
    SaveStep(Run(start, steps), now, recs, announced);
    RunSnoc(start, steps, Save(0, recs));
    OwnSnoc(steps, Save(0, recs), now, recs);
    steps := steps + [Save(0, recs)];
    var saved := store.SaveRun(now, news);
    if !saved {
      assert store.runs == runs;
      RanUnsaved(RunTimeRepeated, rows, runs, now, recs, store.candles, steps);
      return RunTimeRepeated, steps;
    }
    result, steps := TellAndJudge(store, now, news, rows, runs, recs, steps);
  }

  /** The rest of the block, once the run is saved. */
  method TellAndJudge(store: DataStore, now: Time, news: seq<Recommendation>, ghost rows: Table, ghost runs: set<Time>,
                      ghost recs: seq<Recommendation>, ghost done: seq<Step>)
    returns (result: RunResult, ghost steps: seq<Step>)
    requires Ordered(store.candles) && now !in runs
    requires news == DropAnnounced(recs, Announced(rows, now - ANNOUNCE_MEMORY))
    requires store.rows == InsertAll(rows, now, news)
    requires Schedulable(Calm(rows, runs), done) && OwnSteps(done, now, recs)
    requires Run(Calm(rows, runs), done)
             == Calm(store.rows, runs + {now}).(lock := Some(0)).Enter(0, Stored(now, news))
    modifies store`rows
    ensures result.Saved()
    ensures Ran(result, rows, runs, store.rows, runs + {now}, now, recs, store.candles, steps)
  {
    hide Apply, Enabled, Schedulable, Run, InsertAll, DropAnnounced, EntriesOf, Progress, AllSettled, Ordered,
      Announced,
      OwnSteps, Ran;
    ghost var start := Calm(rows, runs);
    var delivered: bool := *;
    NotifyStep(Run(start, done), now, news, delivered);
    RunSnoc(start, done, Notify(0, delivered));
    OwnSnoc(done, Notify(0, delivered), now, recs);
    steps := done + [Notify(0, delivered)];
    var raises: bool := *;
    if raises {
      OwnSnoc(steps, Release(0), now, recs);
      steps := Leave(start, steps);
      result := Unjudged(news, delivered);
      RanSaved(result, rows, runs, store.rows, now, recs, store.candles, steps);
      return;
    }
    ghost var told := steps;
    steps := EvaluatePendingOutcomes(store, now, 0, start, steps);
    OwnJudged(told, steps, now, recs);
    OwnSnoc(steps, Release(0), now, recs);
    steps := Leave(start, steps);
    result := Completed(news, delivered);
    RanSaved(result, rows, runs, store.rows, now, recs, store.candles, steps);
  }

  lemma OwnBegin(now: Time, recs: seq<Recommendation>)
    ensures OwnSteps([Begin(0, now)], now, recs) && OwnSteps([Begin(0, now), ReadAnnounced(0)], now, recs)
  {
  }

  lemma OwnSnoc(steps: seq<Step>, step: Step, now: Time, recs: seq<Recommendation>)
    ensures OwnSteps(steps, now, recs) && !step.Watches() && !step.Begin? && (step.Save? ==> step == Save(0, recs)) ==>
              OwnSteps(steps + [step], now, recs)
  {
  }

  lemma OwnJudged(done: seq<Step>, steps: seq<Step>, now: Time, recs: seq<Recommendation>)
    requires OwnSteps(done, now, recs) && forall step <- steps :: step in done || step.ReadUnevaluated? || step.Judge?
    ensures OwnSteps(steps, now, recs)
  {
  }

  lemma LeaveUnsaved(rows: Table, runs: set<Time>, now: Time, recs: seq<Recommendation>,
                     candles: map<Series, seq<Candle>>,
                     done: seq<Step>)
    returns (steps: seq<Step>)
    requires Schedulable(Calm(rows, runs), done) && OwnSteps(done, now, recs)
    requires var s := Run(Calm(rows, runs), done);
             !s.PhaseOf(0).Idle? && s.(lock := None).Enter(0, Idle) == Calm(rows, runs).Enter(0, Idle)
    ensures Ran(Broken, rows, runs, rows, runs, now, recs, candles, steps)
  {
    hide Schedulable, Run, OwnSteps, Ran;
    OwnSnoc(done, Release(0), now, recs);
    steps := Leave(Calm(rows, runs), done);
    RanUnsaved(Broken, rows, runs, now, recs, candles, steps);
  }

  lemma RanUnsaved(result: RunResult, rows: Table, runs: set<Time>, now: Time, recs: seq<Recommendation>,
                   candles: map<Series, seq<Candle>>, steps: seq<Step>)
    requires result.Broken? || (result.RunTimeRepeated? && now in runs)
    requires Schedulable(Calm(rows, runs), steps) && Run(Calm(rows, runs), steps) == Calm(rows, runs).Enter(0, Idle)
    requires OwnSteps(steps, now, recs)
    ensures Ran(result, rows, runs, rows, runs, now, recs, candles, steps)
  {
    hide Schedulable, Run, Progress, AllSettled, InsertAll;
  }

  lemma RanSaved(result: RunResult, rows: Table, runs: set<Time>, after: Table, now: Time, recs: seq<Recommendation>,
                 candles: map<Series, seq<Candle>>, steps: seq<Step>)
    requires result.Saved() && now !in runs
    requires result.news == DropAnnounced(recs, Announced(rows, now - ANNOUNCE_MEMORY))
    requires result.Unjudged? ==> after == InsertAll(rows, now, result.news)
    requires result.Completed? ==>
               var saved := InsertAll(rows, now, result.news);
               Progress(saved, after, [], now, candles) && AllSettled(saved, after, now, candles)
    requires Schedulable(Calm(rows, runs), steps) && OwnSteps(steps, now, recs)
    requires Run(Calm(rows, runs), steps) == Calm(after, runs + {now}).(told := result.Told()).Enter(0, Idle)
    ensures Ran(result, rows, runs, after, runs + {now}, now, recs, candles, steps)
  {
    hide Schedulable, Run, Progress, AllSettled, InsertAll, DropAnnounced, Announced;
  }

  /** Filtering each list against the announced entries. */
  method DropEach(regime: seq<Recommendation>, tracks: seq<seq<Recommendation>>, announced: set<EntryKey>)
    returns (news: seq<Recommendation>)
    ensures news == DropAnnounced(regime + Flatten(tracks), announced)
  {
    hide DropAnnounced, Flatten;
    news := DropAnnounced(regime, announced);
    DropFlatten(regime, tracks, 0, announced);
    for k := 0 to |tracks|
      invariant news == DropAnnounced(regime + Flatten(tracks[..k]), announced)
    {
      DropFlatten(regime, tracks, k, announced);
      news := news + DropAnnounced(tracks[k], announced);
    }
    assert tracks[..|tracks|] == tracks;
  }

  /** Leaving the try block releases the lock. */
  lemma Leave(start: State, done: seq<Step>) returns (steps: seq<Step>)
    requires Schedulable(start, done) && !Run(start, done).PhaseOf(0).Idle?
    ensures Schedulable(start, steps) && Run(start, steps) == Run(start, done).(lock := None).Enter(0, Idle)
    ensures steps == done + [Release(0)]
  {
    hide Schedulable, Run;
    RunSnoc(start, done, Release(0));
    steps := done + [Release(0)];
  }

  lemma BeginStep(s: State, now: Time)
    requires s.PhaseOf(0).Idle? && s.lock.None?
    ensures Schedulable(s, [Begin(0, now)]) && Run(s, [Begin(0, now)]) == s.(lock := Some(0)).Enter(0, Started(now))
  {
    RunOne(s, Begin(0, now));
  }

  lemma BeginSteps(s: State, now: Time)
    requires s.PhaseOf(0).Idle? && s.lock.None?
    ensures Schedulable(s, [Begin(0, now), ReadAnnounced(0)])
    ensures Run(s, [Begin(0, now), ReadAnnounced(0)])
            == s.(lock := Some(0)).Enter(0, Selected(now, Announced(s.rows, now - ANNOUNCE_MEMORY)))
  {
    RunOne(s, Begin(0, now));
    RunSnoc(s, [Begin(0, now)], ReadAnnounced(0));
    assert [Begin(0, now)] + [ReadAnnounced(0)] == [Begin(0, now), ReadAnnounced(0)];
  }

  /** Adding the k-th track's list. */
  lemma DropFlatten(regime: seq<Recommendation>, tracks: seq<seq<Recommendation>>, k: nat, announced: set<EntryKey>)
    requires k <= |tracks|
    ensures regime + Flatten(tracks[..0]) == regime
    ensures k < |tracks| ==>
              DropAnnounced(regime + Flatten(tracks[..k + 1]), announced)
              == DropAnnounced(regime + Flatten(tracks[..k]), announced) + DropAnnounced(tracks[k], announced)
  {
    if k < |tracks| {
      assert tracks[..k + 1][..k] == tracks[..k];
      assert regime + Flatten(tracks[..k + 1]) == regime + Flatten(tracks[..k]) + tracks[k];
      DropConcat(regime + Flatten(tracks[..k]), tracks[k], announced);
    }
  }

  lemma SaveStep(s: State, now: Time, recs: seq<Recommendation>, announced: set<EntryKey>)
    requires s.PhaseOf(0) == Selected(now, announced)
    ensures Enabled(s, Save(0, recs))
    ensures var news := DropAnnounced(recs, announced);
            Apply(s, Save(0, recs)) ==
            if now in s.runs then s.(lock := None).Enter(0, Idle)
            else s.(runs := s.runs + {now}, rows := InsertAll(s.rows, now, news)).Enter(0, Stored(now, news))
  {
  }

  lemma NotifyStep(s: State, now: Time, news: seq<Recommendation>, delivered: bool)
    requires s.PhaseOf(0) == Stored(now, news)
    ensures Enabled(s, Notify(0, delivered))
    ensures Apply(s, Notify(0, delivered))
            == s.(told := if delivered then s.told + EntriesOf(news) else s.told).Enter(0, Told(now))
  {
  }
}
