/** The recommendation ledger under every interleaving of locked pipeline runs with the price
    monitor, which takes no lock (src/pipeline.py, src/monitor.py, src/data_store.py). One step
    is one database transaction or one lock operation. */
module Ledger {
  import opened Domain
  import opened PriceEvents
  import opened Rows

  const ANNOUNCE_MEMORY: Time := 10 * DAY
  const MAX_HOLD: Time := 48 * HOUR

  // ---- the pipeline's own logic ------------------------------------------------------------

  /** `_drop_already_announced`. */
  function DropAnnounced(recs: seq<Recommendation>, announced: set<EntryKey>): seq<Recommendation> {
    if recs == [] then [] else
    var front, last := DropAnnounced(recs[..|recs| - 1], announced), recs[|recs| - 1];
    if last.entryTime.Some? && EntryKey(last.market, last.track, last.entryTime.value) in announced then front
    else front + [last]
  }

  /** The entries a notification names. */
  function EntriesOf(recs: seq<Recommendation>): seq<EntryKey> {
    if recs == [] then [] else
    var front, last := EntriesOf(recs[..|recs| - 1]), recs[|recs| - 1];
    if last.entryTime.Some? then front + [EntryKey(last.market, last.track, last.entryTime.value)] else front
  }

  /** One row as `get_unevaluated` returns it. */
  datatype Snap = Snap(
    key: RowKey,
    entryTime: Time,
    entryPrice: Option<real>,
    targetHit: Option<Time>,
    stopHit: Option<Time>)

  function SnapAt(rows: Table, key: RowKey): Snap
    requires key in rows && rows[key].entryTime.Some?
  {
    var row := rows[key];
    Snap(key, row.entryTime.value, row.entryPrice, row.columns.targetAt, row.columns.stopAt)
  }

  function Deadline(track: string, entryTime: Time): Time {
    entryTime + RulesFor(track).holdHours * HOUR
  }

  /** `evaluate_pending_outcomes` for one snapshot row; `closing` is the price at the deadline. */
  function JudgeSnap(snap: Snap, now: Time, closing: Option<real>): Option<Outcome> {
    var rules := RulesFor(snap.key.track);
    if snap.targetHit.Some? then Some(Outcome(true, rules.target, now))
    else if snap.stopHit.Some? then Some(Outcome(false, -rules.stop, now))
    else if now >= Deadline(snap.key.track, snap.entryTime) then
      if closing.None? || snap.entryPrice.None? || snap.entryPrice.value == 0.0 then None
      else Some(Outcome(false, closing.value / snap.entryPrice.value - 1.0, now))
    else None
  }

  // ---- the state machine -------------------------------------------------------------------

  /** Where one caller of the pipeline stands. */
  datatype Phase =
    | Idle
    | Started(now: Time)
    | Selected(now: Time, announced: set<EntryKey>)
    | Stored(now: Time, news: seq<Recommendation>)
    | Told(now: Time)
    | Evaluating(now: Time, pending: seq<Snap>)

  /** Where the single monitor job stands. `raised` are the events marked in this pass; they reach
      nobody before the pass has returned. */
  datatype Watch =
    | Resting
    | Watching(now: Time, todo: seq<Monitored>, raised: seq<PriceEvent>)
    | Marking(now: Time, todo: seq<Monitored>, events: seq<PriceEvent>, raised: seq<PriceEvent>)
  {
    function Raised(): seq<PriceEvent> { if Resting? then [] else raised }
  }

  /** `marks` are the event columns written so far, in order. `alerts` and `told` are what reached a
      reader: price events and recommendations. */
  datatype State = State(
    rows: Table,
    runs: set<Time>,
    lock: Option<nat>,
    pipes: map<nat, Phase>,
    watch: Watch,
    marks: seq<PriceEvent>,
    alerts: seq<PriceEvent>,
    told: seq<EntryKey>)
  {
    function PhaseOf(p: nat): Phase { if p in pipes then pipes[p] else Idle }
    function Enter(p: nat, phase: Phase): State { this.(pipes := pipes[p := phase]) }

    /** The alerts, and those the running pass may still send. */
    function Reports(): seq<PriceEvent> { alerts + watch.Raised() }
  }

  const EMPTY := State(map[], {}, None, map[], Resting, [], [], [])

  datatype Step =
    | Begin(p: nat, now: Time)
    | ReadAnnounced(p: nat)
    | Save(p: nat, recs: seq<Recommendation>)
    | Notify(p: nat, delivered: bool)
    | ReadUnevaluated(p: nat, keys: seq<RowKey>)
    | Judge(p: nat, closing: Option<real>)
    | Release(p: nat)
    | Snapshot(now: Time, keys: seq<RowKey>)
    | Skip
    | Scan(bars: seq<Candle>)
    | Mark
    | Next
    | Report(delivered: bool)
    | Abandon
  {
    /** A step of the price monitor; the others are the pipelines'. */
    predicate Watches() { Snapshot? || Skip? || Scan? || Mark? || Next? || Report? || Abandon? }
  }

  /** A query result lists a set of rows in some order. */
  predicate Lists(keys: seq<RowKey>, selected: set<RowKey>) {
    && (forall i :: 0 <= i < |keys| ==> keys[i] in selected)
    && (forall key <- selected :: key in keys)
    && (forall i, j :: 0 <= i < j < |keys| ==> keys[i] != keys[j])
  }

  function KeyOfRec(rec: Monitored): RowKey { RowKey(rec.runTime, rec.market, rec.track) }
  function KeyOfEvent(event: PriceEvent): RowKey { RowKey(event.runTime, event.market, event.track) }

  /** The track's own hold window, counted from the announcement, is over. */
  predicate Expired(rec: Monitored, now: Time) {
    rec.runTime < now - RulesFor(rec.track).holdHours * HOUR
  }

  predicate Enabled(s: State, step: Step) {
    match step
    case Begin(p, now) => s.PhaseOf(p).Idle?
    case ReadAnnounced(p) => s.PhaseOf(p).Started?
    case Save(p, recs) => s.PhaseOf(p).Selected?
    case Notify(p, delivered) => s.PhaseOf(p).Stored?
    case ReadUnevaluated(p, keys) => s.PhaseOf(p).Told? && Lists(keys, Unevaluated(s.rows))
    case Judge(p, closing) => s.PhaseOf(p).Evaluating? && s.PhaseOf(p).pending != []
    case Release(p) => !s.PhaseOf(p).Idle?
    case Snapshot(now, keys) => s.watch.Resting? && Lists(keys, Monitorable(s.rows, now - MAX_HOLD))
    case Skip => s.watch.Watching? && s.watch.todo != []
    case Scan(bars) => s.watch.Watching? && s.watch.todo != [] && !Expired(s.watch.todo[0], s.watch.now)
    case Mark => s.watch.Marking? && s.watch.events != []
    case Next => s.watch.Marking? && s.watch.events == []
    case Report(_) => s.watch.Watching? && s.watch.todo == []
    case Abandon => true
  }

  function Apply(s: State, step: Step): State
    requires Enabled(s, step)
  {
    match step
    case Begin(p, now) =>
      if s.lock.Some? then s else s.(lock := Some(p)).Enter(p, Started(now))
    case ReadAnnounced(p) =>
      var now := s.PhaseOf(p).now;
      s.Enter(p, Selected(now, Announced(s.rows, now - ANNOUNCE_MEMORY)))
    case Save(p, recs) =>
      var now, news := s.PhaseOf(p).now, DropAnnounced(recs, s.PhaseOf(p).announced);
      if now in s.runs then s.(lock := None).Enter(p, Idle)
      else s.(runs := s.runs + {now}, rows := InsertAll(s.rows, now, news)).Enter(p, Stored(now, news))
    case Notify(p, delivered) =>
      var phase := s.PhaseOf(p);
      s.(told := if delivered then s.told + EntriesOf(phase.news) else s.told).Enter(p, Told(phase.now))
    case ReadUnevaluated(p, keys) =>
      s.Enter(p, Evaluating(s.PhaseOf(p).now, seq(|keys|, i requires 0 <= i < |keys| => SnapAt(s.rows, keys[i]))))
    case Judge(p, closing) =>
      var phase := s.PhaseOf(p);
      var outcome := JudgeSnap(phase.pending[0], phase.now, closing);
      s.(rows := if outcome.Some? then RecordRow(s.rows, phase.pending[0].key, outcome.value) else s.rows)
       .Enter(p, Evaluating(phase.now, phase.pending[1..]))
    case Release(p) => s.(lock := None).Enter(p, Idle)
    case Snapshot(now, keys) =>
      s.(watch := Watching(now, seq(|keys|, i requires 0 <= i < |keys| => MonitoredAt(s.rows, keys[i])), []))
    case Skip => s.(watch := Watching(s.watch.now, s.watch.todo[1..], s.watch.raised))
    case Scan(bars) =>
      s.(watch := Marking(s.watch.now, s.watch.todo[1..], EventsOf(s.watch.todo[0], bars), s.watch.raised))
    case Mark =>
      var event := s.watch.events[0];
      s.(rows := MarkRow(s.rows, KeyOfEvent(event), event.kind, event.at),
         watch := Marking(s.watch.now, s.watch.todo, s.watch.events[1..], s.watch.raised + [event]),
         marks := s.marks + [event])
    case Next => s.(watch := Watching(s.watch.now, s.watch.todo, s.watch.raised))
    case Report(delivered) =>
      s.(watch := Resting, alerts := if delivered then s.alerts + s.watch.raised else s.alerts)
    case Abandon => s.(watch := Resting)
  }

  /** Every step of the schedule is possible when its turn comes. */
  predicate Schedulable(s: State, steps: seq<Step>)
    decreases steps
  {
    steps != [] ==> Enabled(s, steps[0]) && Schedulable(Apply(s, steps[0]), steps[1..])
  }

  function Run(s: State, steps: seq<Step>): State
    requires Schedulable(s, steps)
    decreases steps
  {
    if steps == [] then s else Run(Apply(s, steps[0]), steps[1..])
  }

  // ---- invariants --------------------------------------------------------------------------

  /** Only the holder of the lock is past its beginning. */
  ghost predicate Exclusive(s: State) {
    forall p <- s.pipes :: !s.pipes[p].Idle? ==> s.lock == Some(p)
  }

  /** A recorded outcome agrees with the monitor's record: a reached target was marked and pays
      the track's target; otherwise the stop was marked and is paid, or the hold had ended. */
  ghost predicate OutcomeSound(key: RowKey, row: Row) {
    row.outcome.Some? ==>
      var o, rules := row.outcome.value, RulesFor(key.track);
      if o.reached then row.columns.targetAt.Some? && o.realized == rules.target
      else || (row.columns.stopAt.Some? && o.realized == -rules.stop)
           || (row.entryTime.Some? && row.entryPrice.Some? && o.at >= Deadline(key.track, row.entryTime.value))
  }

  ghost predicate RowSound(key: RowKey, row: Row) {
    (row.columns.targetAt.None? || row.columns.stopAt.None?) && OutcomeSound(key, row)
  }

  ghost predicate TableSound(rows: Table, runs: set<Time>) {
    Unique(rows) && forall key <- rows :: key.runTime in runs && RowSound(key, rows[key])
  }

  /** A snapshot row still waits for its outcome, and what it saw marked is still marked. */
  ghost predicate SnapCurrent(rows: Table, snap: Snap) {
    && snap.key in rows
    && rows[snap.key].outcome.None?
    && rows[snap.key].entryTime == Some(snap.entryTime)
    && rows[snap.key].entryPrice == snap.entryPrice
    && (snap.targetHit.Some? ==> rows[snap.key].columns.targetAt == snap.targetHit)
    && (snap.stopHit.Some? ==> rows[snap.key].columns.stopAt == snap.stopHit)
  }

  ghost predicate PendingCurrent(rows: Table, pending: seq<Snap>) {
    && (forall i :: 0 <= i < |pending| ==> SnapCurrent(rows, pending[i]))
    && (forall i, j :: 0 <= i < j < |pending| ==> pending[i].key != pending[j].key)
  }

  ghost predicate EvaluationCurrent(rows: Table, pipes: map<nat, Phase>) {
    forall p <- pipes :: pipes[p].Evaluating? ==> PendingCurrent(rows, pipes[p].pending)
  }

  /** The monitor's copy of an open row is up to date: nobody else writes event columns. */
  ghost predicate RecCurrent(rows: Table, rec: Monitored) {
    && KeyOfRec(rec) in rows
    && rows[KeyOfRec(rec)].entryPrice.Some? && rows[KeyOfRec(rec)].entryTime.Some?
    && rec == MonitoredAt(rows, KeyOfRec(rec))
    && rows[KeyOfRec(rec)].columns.Open()
  }

  ghost predicate TodoCurrent(rows: Table, todo: seq<Monitored>) {
    && (forall i :: 0 <= i < |todo| ==> RecCurrent(rows, todo[i]))
    && (forall i, j :: 0 <= i < j < |todo| ==> KeyOfRec(todo[i]) != KeyOfRec(todo[j]))
  }

  /** Events still to be marked: one open row, columns still NULL, closing event last. */
  ghost predicate EventsCurrent(rows: Table, todo: seq<Monitored>, events: seq<PriceEvent>) {
    && (forall i :: 0 <= i < |events| ==>
          && KeyOfEvent(events[i]) == KeyOfEvent(events[0]) && KeyOfEvent(events[i]) in rows
          && rows[KeyOfEvent(events[i])].columns.Open()
          && rows[KeyOfEvent(events[i])].columns.Of(events[i].kind).None?)
    && (forall i :: 0 <= i < |events| - 1 ==> !Terminal(events[i]))
    && (forall i, j :: 0 <= i < j < |events| ==> events[i].kind != events[j].kind)
    && (forall i, j :: 0 <= i < |events| && 0 <= j < |todo| ==> KeyOfEvent(events[i]) != KeyOfRec(todo[j]))
  }

  ghost predicate WatchCurrent(rows: Table, watch: Watch) {
    match watch
    case Resting => true
    case Watching(_, todo, _) => TodoCurrent(rows, todo)
    case Marking(_, todo, events, _) => TodoCurrent(rows, todo) && EventsCurrent(rows, todo, events)
  }

  /** Every event of the list is recorded at its instant, and none repeats a row's event. */
  ghost predicate RecordedOnce(rows: Table, list: seq<PriceEvent>) {
    && (forall i :: 0 <= i < |list| ==>
          KeyOfEvent(list[i]) in rows && rows[KeyOfEvent(list[i])].columns.Of(list[i].kind) == Some(list[i].at))
    && (forall i, j :: 0 <= i < j < |list| ==>
          KeyOfEvent(list[i]) != KeyOfEvent(list[j]) || list[i].kind != list[j].kind)
  }

  /** The marks, and likewise the alerts with those the running pass may still send. */
  ghost predicate AlertsOnce(rows: Table, marks: seq<PriceEvent>, reports: seq<PriceEvent>) {
    RecordedOnce(rows, marks) && RecordedOnce(rows, reports)
  }

  ghost predicate Inv(s: State) {
    && Exclusive(s)
    && TableSound(s.rows, s.runs)
    && EvaluationCurrent(s.rows, s.pipes)
    && WatchCurrent(s.rows, s.watch)
    && AlertsOnce(s.rows, s.marks, s.Reports())
  }

  // ---- what each write does ----------------------------------------------------------------

  /** What a write leaves alone for the monitor: no existing row's event columns or prices. */
  ghost predicate SameEvents(before: Table, after: Table) {
    forall key <- before :: key in after && after[key] == before[key].(outcome := after[key].outcome)
  }

  lemma RecUnaffected(before: Table, after: Table, rec: Monitored)
    ensures SameEvents(before, after) && RecCurrent(before, rec) ==> RecCurrent(after, rec)
  {
  }

  lemma TodoUnaffected(before: Table, after: Table, todo: seq<Monitored>)
    requires SameEvents(before, after) && TodoCurrent(before, todo)
    ensures TodoCurrent(after, todo)
  {
    hide SameEvents, RecCurrent;
    forall i | 0 <= i < |todo|
      ensures RecCurrent(after, todo[i])
    {
      RecUnaffected(before, after, todo[i]);
    }
  }

  lemma EventsUnaffected(before: Table, after: Table, todo: seq<Monitored>, events: seq<PriceEvent>)
    requires SameEvents(before, after) && EventsCurrent(before, todo, events)
    ensures EventsCurrent(after, todo, events)
  {
    forall i | 0 <= i < |events|
      ensures KeyOfEvent(events[i]) in after
              && after[KeyOfEvent(events[i])].columns == before[KeyOfEvent(events[i])].columns
    {
      assert KeyOfEvent(events[i]) in before;
    }
  }

  lemma AlertsUnaffected(before: Table, after: Table, list: seq<PriceEvent>)
    ensures SameEvents(before, after) && RecordedOnce(before, list) ==> RecordedOnce(after, list)
  {
  }

  /** A write that touches no event column is invisible to the monitor and to the alerts. */
  lemma MonitorUnaffected(before: Table, after: Table, s: State)
    requires SameEvents(before, after) && WatchCurrent(before, s.watch) && AlertsOnce(before, s.marks, s.Reports())
    ensures WatchCurrent(after, s.watch) && AlertsOnce(after, s.marks, s.Reports())
  {
    hide SameEvents, TodoCurrent, EventsCurrent, RecordedOnce;
    AlertsUnaffected(before, after, s.marks);
    AlertsUnaffected(before, after, s.Reports());
    match s.watch {
      case Resting =>
      case Watching(_, todo, _) => TodoUnaffected(before, after, todo);
      case Marking(_, todo, events, _) =>
        TodoUnaffected(before, after, todo);
        EventsUnaffected(before, after, todo, events);
    }
  }

  /** Equal entries in the same rows keep the unique index. */
  lemma SameEntriesUnique(before: Table, after: Table)
    requires Unique(before) && before.Keys == after.Keys
    requires forall key <- before :: after[key].entryTime == before[key].entryTime
    ensures Unique(after)
  {
    forall entry, j, k | Stands(after, j, entry) && Stands(after, k, entry)
      ensures j == k
    {
      assert Stands(before, j, entry) && Stands(before, k, entry);
    }
  }

  /** New rows never disturb old ones. */
  lemma InsertIsSafe(s: State, now: Time, news: seq<Recommendation>)
    requires TableSound(s.rows, s.runs) && WatchCurrent(s.rows, s.watch) && AlertsOnce(s.rows, s.marks, s.Reports())
    ensures var rows := InsertAll(s.rows, now, news);
            && TableSound(rows, s.runs + {now}) && Persists(s.rows, rows)
            && WatchCurrent(rows, s.watch) && AlertsOnce(rows, s.marks, s.Reports())
  {
    hide WatchCurrent, AlertsOnce, Unique;
    InsertAllKeeps(s.rows, now, news);
    MonitorUnaffected(s.rows, InsertAll(s.rows, now, news), s);
  }

  /** An outcome judged from a current snapshot row is sound and is the row's first. */
  lemma RecordKeepsTable(rows: Table, runs: set<Time>, snap: Snap, now: Time, closing: Option<real>)
    requires TableSound(rows, runs) && SnapCurrent(rows, snap) && JudgeSnap(snap, now, closing).Some?
    ensures var after := RecordRow(rows, snap.key, JudgeSnap(snap, now, closing).value);
            TableSound(after, runs) && Persists(rows, after) && SameEvents(rows, after)
  {
    hide Unique;
    SameEntriesUnique(rows, RecordRow(rows, snap.key, JudgeSnap(snap, now, closing).value));
  }

  lemma RecordKeepsPending(rows: Table, key: RowKey, outcome: Outcome, pending: seq<Snap>)
    requires PendingCurrent(rows, pending)
    requires forall i :: 0 <= i < |pending| ==> pending[i].key != key
    ensures PendingCurrent(RecordRow(rows, key, outcome), pending)
  {
  }

  /** Marking the next event of the row being watched: the table stays sound, */
  lemma MarkKeepsTable(rows: Table, runs: set<Time>, event: PriceEvent)
    requires TableSound(rows, runs)
    requires KeyOfEvent(event) in rows && rows[KeyOfEvent(event)].columns.Open()
    ensures var after := MarkRow(rows, KeyOfEvent(event), event.kind, event.at);
            TableSound(after, runs) && Persists(rows, after)
  {
    hide Unique;
    SameEntriesUnique(rows, MarkRow(rows, KeyOfEvent(event), event.kind, event.at));
  }

  /** pending snapshots stay current, */
  lemma MarkKeepsPending(rows: Table, key: RowKey, kind: Kind, at: Time, pending: seq<Snap>)
    ensures PendingCurrent(rows, pending) ==> PendingCurrent(MarkRow(rows, key, kind, at), pending)
  {
  }

  /** the rows still to be watched are untouched, */
  lemma MarkKeepsTodo(rows: Table, todo: seq<Monitored>, event: PriceEvent)
    requires TodoCurrent(rows, todo) && KeyOfEvent(event) in rows
    requires forall j :: 0 <= j < |todo| ==> KeyOfEvent(event) != KeyOfRec(todo[j])
    ensures TodoCurrent(MarkRow(rows, KeyOfEvent(event), event.kind, event.at), todo)
  {
  }

  lemma MarkLeavesOthers(columns: Columns, kind: Kind, at: Time, other: Kind)
    requires other != kind
    ensures columns.Mark(kind, at).Of(other) == columns.Of(other)
    ensures columns.Open() && kind == EntryTouched ==> columns.Mark(kind, at).Open()
  {
  }

  lemma FirstTouches(rows: Table, todo: seq<Monitored>, events: seq<PriceEvent>, i: nat)
    requires EventsCurrent(rows, todo, events) && 0 < i < |events|
    ensures events[0].kind == EntryTouched && events[i].kind != EntryTouched
    ensures KeyOfEvent(events[i]) == KeyOfEvent(events[0]) && KeyOfEvent(events[0]) in rows
    ensures rows[KeyOfEvent(events[0])].columns.Open() && rows[KeyOfEvent(events[0])].columns.Of(events[i].kind).None?
  {
    assert !Terminal(events[0]);
  }

  /** the remaining events can still be marked, */
  lemma MarkKeepsEvents(rows: Table, todo: seq<Monitored>, events: seq<PriceEvent>)
    requires events != [] && EventsCurrent(rows, todo, events)
    ensures EventsCurrent(MarkRow(rows, KeyOfEvent(events[0]), events[0].kind, events[0].at), todo, events[1..])
  {
    hide Columns.Mark, Columns.Of, Columns.Open;
    var key, kind, at, rest := KeyOfEvent(events[0]), events[0].kind, events[0].at, events[1..];
    var after := MarkRow(rows, key, kind, at);
    forall i | 0 <= i < |rest|
      ensures rest[i] == events[i + 1] && KeyOfEvent(rest[i]) == key && key in after
      ensures after[key].columns.Open() && after[key].columns.Of(rest[i].kind).None?
    {
      FirstTouches(rows, todo, events, i + 1);
      MarkLeavesOthers(rows[key].columns, kind, at, events[i + 1].kind);
    }
    assert forall i :: 0 <= i < |rest| ==> rest[i] == events[i + 1];
  }

  /** and the event is new. */
  lemma MarkKeepsAlerts(rows: Table, list: seq<PriceEvent>, event: PriceEvent)
    requires RecordedOnce(rows, list)
    requires KeyOfEvent(event) in rows && rows[KeyOfEvent(event)].columns.Of(event.kind).None?
    ensures RecordedOnce(MarkRow(rows, KeyOfEvent(event), event.kind, event.at), list + [event])
  {
    var more, after := list + [event], MarkRow(rows, KeyOfEvent(event), event.kind, event.at);
    forall i | 0 <= i < |more|
      ensures KeyOfEvent(more[i]) in after && after[KeyOfEvent(more[i])].columns.Of(more[i].kind) == Some(more[i].at)
      ensures i < |list| ==> KeyOfEvent(more[i]) != KeyOfEvent(event) || more[i].kind != event.kind
    {
      if i < |list| {
        assert more[i] == list[i];
      }
    }
  }

  lemma RecordedFirst(rows: Table, first: seq<PriceEvent>, second: seq<PriceEvent>)
    ensures RecordedOnce(rows, first + second) ==> RecordedOnce(rows, first)
  {
    assert forall i :: 0 <= i < |first| ==> (first + second)[i] == first[i];
  }

  /** The events of a scan name the scanned row; a touch is raised only if none was recorded. */
  lemma {:induction false} ScanNames(rec: Monitored, bars: seq<Candle>, k: nat, seen: bool)
    requires k <= |bars|
    ensures forall event <- EventsFrom(rec, bars, k, seen) ::
              KeyOfEvent(event) == KeyOfRec(rec) && (event.kind == EntryTouched ==> !seen)
    decreases |bars| - k
  {
    if k < |bars| {
      ScanNames(rec, bars, k + 1, true);
      ScanNames(rec, bars, k + 1, seen);
    }
  }

  /** A scan of a current row raises only events that can be marked. */
  lemma ScanIsSafe(rows: Table, rec: Monitored, rest: seq<Monitored>, bars: seq<Candle>)
    requires TodoCurrent(rows, [rec] + rest)
    ensures TodoCurrent(rows, rest) && EventsCurrent(rows, rest, EventsOf(rec, bars))
  {
    hide EventsFrom;
    var todo := [rec] + rest;
    assert todo[0] == rec && forall i :: 0 <= i < |rest| ==> todo[i + 1] == rest[i];
    ScanShape(rec, bars, 0, rec.entryTouchedAt.Some?);
    ScanNames(rec, bars, 0, rec.entryTouchedAt.Some?);
    var events := EventsOf(rec, bars);
    assert forall i :: 0 <= i < |events| ==> events[i] in EventsFrom(rec, bars, 0, rec.entryTouchedAt.Some?);
    assert |events| == 2 ==> Ended(events);
  }

  // ---- every step keeps the invariant --------------------------------------------------------

  lemma SaveKeepsInv(s: State, p: nat, recs: seq<Recommendation>)
    requires Inv(s) && Enabled(s, Save(p, recs))
    ensures Inv(Apply(s, Save(p, recs))) && Persists(s.rows, Apply(s, Save(p, recs)).rows)
  {
    hide TableSound, WatchCurrent, AlertsOnce, PendingCurrent, InsertAll, Persists;
    PersistsReflexive(s.rows);
    InsertIsSafe(s, s.PhaseOf(p).now, DropAnnounced(recs, s.PhaseOf(p).announced));
  }

  lemma JudgeKeepsInv(s: State, p: nat, closing: Option<real>)
    requires Inv(s) && Enabled(s, Judge(p, closing))
    ensures Inv(Apply(s, Judge(p, closing))) && Persists(s.rows, Apply(s, Judge(p, closing)).rows)
  {
    hide TableSound, WatchCurrent, AlertsOnce, SnapCurrent, JudgeSnap, RecordRow, Persists;
    PersistsReflexive(s.rows);
    var pending, now := s.PhaseOf(p).pending, s.PhaseOf(p).now;
    var outcome := JudgeSnap(pending[0], now, closing);
    if outcome.Some? {
      RecordKeepsTable(s.rows, s.runs, pending[0], now, closing);
      RecordKeepsPending(s.rows, pending[0].key, outcome.value, pending[1..]);
      MonitorUnaffected(s.rows, Apply(s, Judge(p, closing)).rows, s);
    }
  }

  lemma PipelineStepKeepsInv(s: State, step: Step)
    requires Inv(s) && Enabled(s, step)
    requires !step.Watches()
    ensures Inv(Apply(s, step)) && Persists(s.rows, Apply(s, step).rows)
  {
    hide TableSound, WatchCurrent, AlertsOnce, Persists;
    match step {
      case Save(p, recs) => SaveKeepsInv(s, p, recs);
      case Judge(p, closing) => JudgeKeepsInv(s, p, closing);
      case _ => PersistsReflexive(s.rows);
    }
  }

  /** Marking one event, for the marks and for the alerts the pass may still send. */
  lemma MarkKeepsLists(s: State)
    requires Inv(s) && Enabled(s, Mark)
    ensures AlertsOnce(Apply(s, Mark).rows, Apply(s, Mark).marks, Apply(s, Mark).Reports())
  {
    hide RecordedOnce, TableSound, EvaluationCurrent, TodoCurrent, Exclusive;
    var event := s.watch.events[0];
    MarkKeepsAlerts(s.rows, s.marks, event);
    MarkKeepsAlerts(s.rows, s.alerts + s.watch.raised, event);
    assert s.alerts + (s.watch.raised + [event]) == s.alerts + s.watch.raised + [event];
  }

  lemma MarkKeepsInv(s: State)
    requires Inv(s) && Enabled(s, Mark)
    ensures Inv(Apply(s, Mark)) && Persists(s.rows, Apply(s, Mark).rows)
  {
    hide TableSound, AlertsOnce, PendingCurrent, TodoCurrent, MarkRow;
    var event := s.watch.events[0];
    MarkKeepsTable(s.rows, s.runs, event);
    forall p <- s.pipes | s.pipes[p].Evaluating? {
      MarkKeepsPending(s.rows, KeyOfEvent(event), event.kind, event.at, s.pipes[p].pending);
    }
    MarkKeepsTodo(s.rows, s.watch.todo, event);
    MarkKeepsEvents(s.rows, s.watch.todo, s.watch.events);
    MarkKeepsLists(s);
  }

  lemma MonitorStepKeepsInv(s: State, step: Step)
    requires Inv(s) && Enabled(s, step)
    requires step.Watches()
    ensures Inv(Apply(s, step)) && Persists(s.rows, Apply(s, step).rows)
  {
    hide TableSound, RecordedOnce, EvaluationCurrent, Persists;
    PersistsReflexive(s.rows);
    match step {
      case Scan(bars) =>
        assert s.watch.todo == [s.watch.todo[0]] + s.watch.todo[1..];
        ScanIsSafe(s.rows, s.watch.todo[0], s.watch.todo[1..], bars);
      case Mark => MarkKeepsInv(s);
      case Report(_) =>
        RecordedFirst(s.rows, s.alerts, s.watch.raised);
        assert s.alerts + s.watch.raised + [] == s.alerts + s.watch.raised && s.alerts + [] == s.alerts;
      case Abandon =>
        RecordedFirst(s.rows, s.alerts, s.watch.Raised());
        assert s.alerts + [] == s.alerts;
      case Snapshot(_, _) =>
      case Skip =>
      case Next =>
    }
  }

  lemma StepKeepsInv(s: State, step: Step)
    requires Inv(s) && Enabled(s, step)
    ensures Inv(Apply(s, step)) && Persists(s.rows, Apply(s, step).rows)
  {
    hide Inv, Persists, Apply;
    if step.Watches() {
      MonitorStepKeepsInv(s, step);
    } else {
      PipelineStepKeepsInv(s, step);
    }
  }

  lemma PersistsTransitive(a: Table, b: Table, c: Table)
    requires Persists(a, b) && Persists(b, c)
    ensures Persists(a, c)
  {
  }

  /** Ledger safety: whatever the schedule, the invariant holds at the end, and every column
      written before is still there with the same value. */
  lemma {:induction false} LedgerSafety(s: State, steps: seq<Step>)
    requires Inv(s) && Schedulable(s, steps)
    ensures Inv(Run(s, steps)) && Persists(s.rows, Run(s, steps).rows)
    decreases steps
  {
    hide Inv, Persists, Apply;
    if steps == [] {
      PersistsReflexive(s.rows);
    } else {
      StepKeepsInv(s, steps[0]);
      LedgerSafety(Apply(s, steps[0]), steps[1..]);
      PersistsTransitive(s.rows, Apply(s, steps[0]).rows, Run(s, steps).rows);
    }
  }

  lemma PersistsReflexive(rows: Table)
    ensures Persists(rows, rows)
  {
  }

  /** From an empty ledger, in plain words. */
  lemma LedgerSafetyFromEmpty(steps: seq<Step>)
    requires Schedulable(EMPTY, steps)
    ensures var s := Run(EMPTY, steps);
            && (forall key <- s.rows :: s.rows[key].columns.targetAt.None? || s.rows[key].columns.stopAt.None?)
            && (forall key <- s.rows :: s.rows[key].outcome.Some? && s.rows[key].outcome.value.reached ==>
                  s.rows[key].columns.targetAt.Some?
                    && s.rows[key].outcome.value.realized == RulesFor(key.track).target)
            && (forall i, j :: 0 <= i < j < |s.alerts| ==>
                  KeyOfEvent(s.alerts[i]) != KeyOfEvent(s.alerts[j]) || s.alerts[i].kind != s.alerts[j].kind)
            && (forall event <- s.alerts ::
                  KeyOfEvent(event) in s.rows && s.rows[KeyOfEvent(event)].columns.Of(event.kind) == Some(event.at))
            && (forall p, q :: p in s.pipes && q in s.pipes && !s.pipes[p].Idle? && !s.pipes[q].Idle? ==> p == q)
  {
    LedgerSafety(EMPTY, steps);
    var s := Run(EMPTY, steps);
    assert forall key <- s.rows :: RowSound(key, s.rows[key]);
    RecordedFirst(s.rows, s.alerts, s.watch.Raised());
  }

  // ---- why evaluation needs the lock ---------------------------------------------------------

  /** Two evaluations that overlap: the first reads the row before the monitor marks the target,
      the second reads it after and records the win, then the first records its timeout. The
      UPDATE has no guard, so the win is lost although the target hit is on record. */
  lemma UnlockedEvaluationLosesAWin(rows: Table, key: RowKey, at: Time, now: Time, closing: real)
    requires key in rows && rows[key].outcome.None? && rows[key].columns.Open()
    requires rows[key].entryTime.Some? && rows[key].entryPrice.Some? && rows[key].entryPrice.value != 0.0
    requires now >= Deadline(key.track, rows[key].entryTime.value)
    ensures var marked := MarkRow(rows, key, TargetHit, at);
            var early, late := SnapAt(rows, key), SnapAt(marked, key);
            var won := RecordRow(marked, key, JudgeSnap(late, now, Some(closing)).value);
            var lost := RecordRow(won, key, JudgeSnap(early, now, Some(closing)).value);
            && won[key].outcome.Some? && won[key].outcome.value.reached
            && lost[key].outcome.Some? && !lost[key].outcome.value.reached
            && lost[key].columns.targetAt == Some(at) && !Persists(won, lost)
  {
    var marked := MarkRow(rows, key, TargetHit, at);
    var won := RecordRow(marked, key, JudgeSnap(SnapAt(marked, key), now, Some(closing)).value);
    var lost := RecordRow(won, key, JudgeSnap(SnapAt(rows, key), now, Some(closing)).value);
    assert !RowPersists(won[key], lost[key]);
  }
}
