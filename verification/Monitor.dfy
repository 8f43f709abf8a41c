/** One pass of the price monitor over the store (src/monitor.py, `check_price_events`). */
module Monitor {
  import opened Domain
  import opened Exchange
  import opened PriceEvents
  import opened Rows
  import opened Ledger
  import opened TrackTable
  import opened Store

  const MONITOR_PAGES: nat := 3

  // ---- marking the events of one row -------------------------------------------------------

  function MarkEvents(rows: Table, events: seq<PriceEvent>): Table {
    if events == [] then rows
    else MarkRow(MarkEvents(rows, events[..|events| - 1]), KeyOfEvent(events[|events| - 1]), events[|events| - 1].kind,
                 events[|events| - 1].at)
  }

  lemma {:induction false} MarkAllSnoc(columns: Columns, events: seq<PriceEvent>, last: PriceEvent)
    ensures columns.MarkAll(events + [last]) == columns.MarkAll(events).Mark(last.kind, last.at)
  {
    MarkAllAppends(columns, events, [last]);
    assert [last][1..] == [];
    assert columns.MarkAll(events).MarkAll([last]) == columns.MarkAll(events).Mark(last.kind, last.at);
  }

  /** Events of one row change that row's event columns and nothing else. */
  lemma {:induction false} MarkEventsIs(rows: Table, key: RowKey, events: seq<PriceEvent>)
    requires key in rows && forall event <- events :: KeyOfEvent(event) == key
    ensures MarkEvents(rows, events) == rows[key := rows[key].(columns := rows[key].columns.MarkAll(events))]
  {
    if events == [] {
      assert rows[key := rows[key].(columns := rows[key].columns.MarkAll(events))] == rows;
    } else {
      var front, last := events[..|events| - 1], events[|events| - 1];
      assert events == front + [last];
      MarkEventsIs(rows, key, front);
      MarkAllSnoc(rows[key].columns, front, last);
    }
  }

  // ---- as steps of the ledger --------------------------------------------------------------

  lemma {:induction false} RunAppend(s: State, first: seq<Step>, second: seq<Step>)
    requires Schedulable(s, first) && Schedulable(Run(s, first), second)
    ensures Schedulable(s, first + second) && Run(s, first + second) == Run(Run(s, first), second)
    decreases first
  {
    hide Apply, Enabled;
    if first == [] {
      assert first + second == second;
    } else {
      assert (first + second)[1..] == first[1..] + second && (first + second)[0] == first[0];
      RunAppend(Apply(s, first[0]), first[1..], second);
    }
  }

  lemma RunOne(s: State, step: Step)
    requires Enabled(s, step)
    ensures Schedulable(s, [step]) && Run(s, [step]) == Apply(s, step)
  {
    assert [step][1..] == [];
    assert Schedulable(Apply(s, step), []) && Run(Apply(s, step), []) == Apply(s, step);
  }

  lemma RunSnoc(s: State, steps: seq<Step>, step: Step)
    requires Schedulable(s, steps) && Enabled(Run(s, steps), step)
    ensures Schedulable(s, steps + [step]) && Run(s, steps + [step]) == Apply(Run(s, steps), step)
  {
    hide Apply, Enabled;
    RunOne(Run(s, steps), step);
    RunAppend(s, steps, [step]);
  }

  /** A ledger at rest with these tables. */
  function Calm(rows: Table, runs: set<Time>): State { EMPTY.(rows := rows, runs := runs) }

  /** The fetch holds every minute since the entry that had closed at `before`, as far as three
      pages reach, and none that had not closed at `after`. */
  ghost predicate Sees(bars: seq<Candle>, entry: Time, seen: seq<Candle>, before: Time, after: Time) {
    var a := OpenedBefore(bars, QueryTime(entry));
    && SliceFrom(bars, entry, seen)
    && |seen| <= 999 * MONITOR_PAGES + 1
    && Lesser(ClosedBy(bars, before), a + 999 * MONITOR_PAGES + 1) <= a + |seen| <= Greater(a, ClosedBy(bars, after))
  }

  lemma EnoughSeen(bars: seq<Candle>, entry: Time, seen: seq<Candle>, before: Time, after: Time, pages: nat, full: bool)
    requires SliceFrom(bars, entry, seen) && pages <= MONITOR_PAGES && (full ==> pages == MONITOR_PAGES)
    requires FetchEnds(OpenedBefore(bars, QueryTime(entry)), |seen|, ClosedBy(bars, before), ClosedBy(bars, after),
                       pages, full)
    ensures Sees(bars, entry, seen, before, after)
  {
    hide SliceFrom, OpenedBefore, ClosedBy, QueryTime, PagesFor;
  }

  lemma SeesWidens(bars: seq<Candle>, entry: Time, seen: seq<Candle>, before: Time, after: Time, earlier: Time,
                   later: Time)
    requires Printed(bars, M1) && earlier <= before && after <= later && Sees(bars, entry, seen, before, after)
    ensures Sees(bars, entry, seen, earlier, later)
  {
    hide SliceFrom, OpenedBefore, ClosedBy, QueryTime, Printed;
    ClosedByGrows(bars, M1, earlier, before);
    ClosedByGrows(bars, M1, after, later);
  }

  // ---- one recommendation ------------------------------------------------------------------

  /** Fetch the minutes since the entry and mark what they show. A mark that raises ends the pass:
      what was marked before it stays marked. */
  method WatchOne(store: DataStore, client: BinanceClient, rec: Monitored, now: Time, ghost start: State,
                  ghost done: seq<Step>)
    returns (ok: bool, events: seq<PriceEvent>, ghost fetch: Fetch, ghost steps: seq<Step>)
    requires client.Valid()
    requires Schedulable(start, done) && Run(start, done).rows == store.rows
    requires var watch := Run(start, done).watch;
             watch.Watching? && watch.now == now && watch.todo != [] && watch.todo[0] == rec
    modifies store`rows, client
    ensures client.Valid()
    ensures var found := if fetch.None? then [] else EventsOf(rec, fetch.value);
            events <= found && (ok ==> events == found)
    ensures if now <= rec.runTime + HoldOf(rec.track)
            then old(client.requests) < client.requests <= old(client.requests) + MONITOR_PAGES
            else fetch.None? && client.requests == old(client.requests)
    ensures old(client.now) <= client.now
    ensures fetch.Some? ==> Sees(client.Bars(Series(rec.market, M1)), rec.entryTime, fetch.value, old(client.now),
                                 client.now)
    ensures store.rows == MarkEvents(old(store.rows), events)
    ensures Schedulable(start, steps) && forall step <- steps :: step in done || step.Watches()
    ensures var before, after := Run(start, done), Run(start, steps);
            after == before.(
              rows := store.rows, marks := before.marks + events,
              watch := if ok then Watching(now, before.watch.todo[1..], before.watch.raised + events) else Resting)
  {
    hide Apply, Enabled, EventsOf, Schedulable, Run, Sees, BinanceClient.Valid, Expired, MarkEvents;
    ok, events, fetch, steps := true, [], None, done;
    ghost var before := Run(start, done);
    assert before.marks + [] == before.marks && before.watch.raised + [] == before.watch.raised;
    NothingMarked(store.rows);
    ExpiredIff(rec, now);
    if Expired(rec, now) {
      SkipStep(before);
      RunSnoc(start, steps, Skip);
      steps := steps + [Skip];
      return;
    }
    var fetched, truncated := client.GetKlinesSince(Series(rec.market, M1), rec.entryTime, MONITOR_PAGES);
    if fetched.None? {
      SkipStep(before);
      RunSnoc(start, steps, Skip);
      steps := steps + [Skip];
      return;
    }
    fetch := fetched;
    EnoughSeen(client.Bars(Series(rec.market, M1)), rec.entryTime, fetched.value, old(client.now), client.now,
               client.requests - old(client.requests), truncated);
    var found := EventsFor(rec, fetched.value);
    ScanStep(before, fetched.value);
    RunSnoc(start, steps, Scan(fetched.value));
    ok, events, steps := MarkFound(store, found, before, start, steps + [Scan(fetched.value)]);
  }

  lemma NothingMarked(rows: Table)
    ensures MarkEvents(rows, []) == rows
  {
  }

  /** Mark the events found for one row, one by one. */
  method MarkFound(store: DataStore, found: seq<PriceEvent>, ghost before: State, ghost start: State,
                   ghost done: seq<Step>)
    returns (ok: bool, events: seq<PriceEvent>, ghost steps: seq<Step>)
    requires before.watch.Watching? && before.watch.todo != [] && before.rows == store.rows
    requires Schedulable(start, done) && Run(start, done) == Marked(before, store.rows, found, 0)
    modifies store`rows
    ensures events <= found && (ok ==> events == found)
    ensures store.rows == MarkEvents(old(store.rows), events)
    ensures Schedulable(start, steps) && forall step <- steps :: step in done || step.Watches()
    ensures Run(start, steps) == before.(
              rows := store.rows, marks := before.marks + events,
              watch := if ok then Watching(before.watch.now, before.watch.todo[1..], before.watch.raised + events)
                       else Resting)
  {
    hide Apply, Enabled, Schedulable, Run;
    events, steps := [], done;
    for i := 0 to |found|
      invariant store.rows == MarkEvents(old(store.rows), found[..i])
      invariant events == found[..i]
      invariant Schedulable(start, steps) && forall step <- steps :: step in done || step.Watches()
      invariant Run(start, steps) == Marked(before, store.rows, found, i)
    {
      assert found[..i + 1][..i] == found[..i];
      var raises: bool := *;
      if raises {
        AbandonStep(Run(start, steps));
        RunSnoc(start, steps, Abandon);
        steps := steps + [Abandon];
        return false, events, steps;
      }
      store.MarkPriceEvent(KeyOfEvent(found[i]), found[i].kind, found[i].at);
      events := events + [found[i]];
      MarkStep(before, Run(start, steps).rows, found, i);
      RunSnoc(start, steps, Mark);
      steps := steps + [Mark];
    }
    assert found[..|found|] == found && found[|found|..] == [];
    NextStep(Run(start, steps));
    RunSnoc(start, steps, Next);
    steps := steps + [Next];
    ok := true;
  }

  /** A pass that has marked the first i of the events found for its next row. */
  function Marked(s: State, rows: Table, found: seq<PriceEvent>, i: nat): State
    requires s.watch.Watching? && s.watch.todo != [] && i <= |found|
  {
    s.(rows := rows, marks := s.marks + found[..i],
       watch := Marking(s.watch.now, s.watch.todo[1..], found[i..], s.watch.raised + found[..i]))
  }

  lemma AbandonStep(s: State)
    ensures Enabled(s, Abandon) && Apply(s, Abandon) == s.(watch := Resting)
  {
  }

  lemma SkipStep(s: State)
    requires s.watch.Watching? && s.watch.todo != []
    ensures Enabled(s, Skip) && Apply(s, Skip) == s.(watch := Watching(s.watch.now, s.watch.todo[1..], s.watch.raised))
  {
  }

  lemma ScanStep(s: State, bars: seq<Candle>)
    requires s.watch.Watching? && s.watch.todo != [] && !Expired(s.watch.todo[0], s.watch.now)
    ensures Enabled(s, Scan(bars))
    ensures Apply(s, Scan(bars)) == Marked(s, s.rows, EventsOf(s.watch.todo[0], bars), 0)
  {
    hide EventsOf;
    var found := EventsOf(s.watch.todo[0], bars);
    assert found[0..] == found && s.marks + found[..0] == s.marks && s.watch.raised + found[..0] == s.watch.raised;
  }

  lemma MarkStep(s: State, rows: Table, found: seq<PriceEvent>, i: nat)
    requires s.watch.Watching? && s.watch.todo != [] && i < |found|
    ensures var event := found[i];
            && Enabled(Marked(s, rows, found, i), Mark)
            && Apply(Marked(s, rows, found, i), Mark)
               == Marked(s, MarkRow(rows, KeyOfEvent(event), event.kind, event.at), found, i + 1)
  {
    hide MarkRow;
    assert found[i..][1..] == found[i + 1..] && found[..i] + [found[i]] == found[..i + 1];
    assert s.marks + found[..i] + [found[i]] == s.marks + found[..i + 1];
    assert s.watch.raised + found[..i] + [found[i]] == s.watch.raised + found[..i + 1];
  }

  lemma NextStep(s: State)
    requires s.watch.Marking? && s.watch.events == []
    ensures Enabled(s, Next) && Apply(s, Next) == s.(watch := Watching(s.watch.now, s.watch.todo, s.watch.raised))
  {
  }

  lemma ReportStep(s: State, delivered: bool)
    requires s.watch.Watching? && s.watch.todo == []
    ensures Enabled(s, Report(delivered))
    ensures Apply(s, Report(delivered))
            == s.(watch := Resting, alerts := if delivered then s.alerts + s.watch.raised else s.alerts)
  {
  }

  // ---- the whole check -----------------------------------------------------------------------

  /** A row after one check: the events of its fetch are marked, nothing else changes. */
  ghost predicate Checked(before: Table, after: Table, key: RowKey, fetched: map<RowKey, Fetch>) {
    && key in before && key in after
    && if key in fetched && before[key].entryPrice.Some? && before[key].entryTime.Some? then
         after[key] == before[key].(columns := before[key].columns.MarkAll(
                         CheckEvents(MonitoredAt(before, key), before[key].columns, fetched[key])))
       else after[key] == before[key]
  }

  /** Every fetch that was used is a row's own within its hold, and saw the closed minutes since its
      entry. */
  ghost predicate FetchesSound(client: BinanceClient, before: Table, fetched: map<RowKey, Fetch>, now: Time,
                               from: Time, until: Time)
  {
    forall key <- fetched :: fetched[key].Some? ==>
      && key in before && before[key].entryPrice.Some? && before[key].entryTime.Some?
      && now <= key.runTime + HoldOf(key.track)
      && Sees(client.Bars(Series(key.market, M1)), before[key].entryTime.value, fetched[key].value, from, until)
  }

  /** The rows that are within their own hold. */
  ghost function InHold(keys: set<RowKey>, now: Time): set<RowKey> {
    set key <- keys | now <= key.runTime + HoldOf(key.track)
  }

  /** Each of these rows that is within its hold was asked for, in one to three requests, and no other. */
  ghost predicate Asked(keys: set<RowKey>, now: Time, before: nat, after: nat) {
    var asked := |InHold(keys, now)|;
    before + asked <= after <= before + 3 * asked
  }

  lemma AskedOne(keys: set<RowKey>, key: RowKey, now: Time, before: nat, middle: nat, after: nat)
    requires Asked(keys, now, before, middle) && key !in keys
    requires if now <= key.runTime + HoldOf(key.track) then middle < after <= middle + MONITOR_PAGES
             else after == middle
    ensures Asked(keys + {key}, now, before, after)
  {
    hide HoldOf;
    if now <= key.runTime + HoldOf(key.track) {
      assert InHold(keys + {key}, now) == InHold(keys, now) + {key};
    } else {
      assert InHold(keys + {key}, now) == InHold(keys, now);
    }
  }

  lemma NobodyAsked(now: Time, requests: nat)
    ensures Asked({}, now, requests, requests)
  {
    assert InHold({}, now) == {};
  }

  lemma NothingChecked(client: BinanceClient, rows: Table, now: Time)
    ensures forall key <- rows :: Checked(rows, rows, key, map[])
    ensures forall from, until :: FetchesSound(client, rows, map[], now, from, until)
  {
  }

  lemma FetchAdded(
    client: BinanceClient, before: Table, fetched: map<RowKey, Fetch>, key: RowKey, fetch: Fetch, now: Time,
    from: Time, middle: Time, until: Time)
    requires client.Valid() && from <= middle <= until
    requires FetchesSound(client, before, fetched, now, from, middle)
    requires key in before && before[key].entryPrice.Some? && before[key].entryTime.Some?
    requires fetch.Some? ==>
               && now <= key.runTime + HoldOf(key.track)
               && Sees(client.Bars(Series(key.market, M1)), before[key].entryTime.value, fetch.value, middle, until)
    ensures FetchesSound(client, before, fetched[key := fetch], now, from, until)
  {
    hide Sees, HoldOf;
    forall k <- fetched[key := fetch] | fetched[key := fetch][k].Some?
      ensures Sees(client.Bars(Series(k.market, M1)), before[k].entryTime.value, fetched[key := fetch][k].value, from,
                   until)
    {
      client.BarsArePrinted(Series(k.market, M1));
      SeesWidens(client.Bars(Series(k.market, M1)), before[k].entryTime.value, fetched[key := fetch][k].value,
                 if k == key then middle else from, if k == key then until else middle, from, until);
    }
  }

  /** A row after a check that was broken off: part of the events of its fetch may be marked. */
  ghost predicate PartlyChecked(before: Table, after: Table, key: RowKey, fetched: map<RowKey, Fetch>) {
    && key in before && key in after
    && if key in fetched && before[key].entryPrice.Some? && before[key].entryTime.Some? then
         exists events ::
           && events <= CheckEvents(MonitoredAt(before, key), before[key].columns, fetched[key])
           && after[key] == before[key].(columns := before[key].columns.MarkAll(events))
       else after[key] == before[key]
  }

  /** `check_price_events`: every open row in its hold window is scanned once, and the events returned
      are those marked. When the query or a mark raises nothing is returned, although the events
      marked so far stay marked. The whole check is one schedule of ledger steps. */
  method CheckPriceEvents(store: DataStore, client: BinanceClient, now: Time)
    returns (newEvents: Option<seq<PriceEvent>>, ghost marked: seq<PriceEvent>, ghost fetched: map<RowKey, Fetch>,
             ghost steps: seq<Step>)
    requires client.Valid()
    modifies store`rows, client
    ensures client.Valid()
    ensures Schedulable(Calm(old(store.rows), store.runs), steps) && forall step <- steps :: step.Watches()
    ensures Run(Calm(old(store.rows), store.runs), steps)
            == Calm(store.rows, store.runs).(
                 marks := marked, watch := if newEvents.Some? then Watching(now, [], marked) else Resting)
    ensures newEvents.Some? ==>
              && newEvents.value == marked
              && fetched.Keys == Monitorable(old(store.rows), now - 48 * 3_600_000_000)
              && forall key <- old(store.rows) :: Checked(old(store.rows), store.rows, key, fetched)
    ensures newEvents.None? ==>
              && fetched.Keys <= Monitorable(old(store.rows), now - 48 * 3_600_000_000)
              && forall key <- old(store.rows) :: PartlyChecked(old(store.rows), store.rows, key, fetched)
    ensures FetchesSound(client, old(store.rows), fetched, now, old(client.now), client.now)
    ensures Asked(fetched.Keys, now, old(client.requests), client.requests)
  {
    hide Apply, Enabled, EventsOf, MarkRow, MarkEvents, Schedulable, Run, Sees, Watched, BrokenOff, Expired, HoldOf,
      Checked, PartlyChecked, FetchesSound, Asked, BinanceClient.Valid;
    fetched, marked := map[], [];
    ghost var before, start, from, sent := store.rows, Calm(store.rows, store.runs), client.now, client.requests;
    NothingRun(start);
    NothingWatched(client, before, now, sent);
    steps := [];
    var raises: bool := *;
    if raises {
      WatchedMeans(client, before, before, fetched, now, from, from, sent, sent);
      return None, marked, fetched, steps;
    }
    var keys, recs := store.GetMonitorable(now - MAX_HOLD);
    SnapshotStep(start, now, keys, recs);
    steps := [Snapshot(now, keys)];
    var raised: seq<PriceEvent> := [];
    for i := 0 to |recs|
      invariant client.Valid()
      invariant raised == marked
      invariant Schedulable(start, steps) && forall step <- steps :: step.Watches()
      invariant Run(start, steps)
                == start.(rows := store.rows, marks := marked, watch := Watching(now, recs[i..], marked))
      invariant fetched.Keys == set k | 0 <= k < i :: keys[k]
      invariant Watched(client, before, store.rows, fetched, now, from, client.now, sent, client.requests)
    {
      ghost var rows, since, asked := store.rows, client.now, client.requests;
      assert recs[i..][0] == recs[i] && recs[i..][1..] == recs[i + 1..];
      assert keys[i] in Monitorable(before, now - MAX_HOLD) && keys[i] !in fetched;
      var ok, events, fetch, more := WatchOne(store, client, recs[i], now, start, steps);
      WatchedNext(client, before, rows, fetched, now, from, since, client.now, sent, asked, client.requests, keys[i],
                  fetch,
                  events);
      raised, marked, steps, fetched := raised + events, marked + events, more, fetched[keys[i] := fetch];
      if !ok {
        BrokenOffMeans(client, before, store.rows, fetched, now, from, client.now, sent, client.requests);
        return None, marked, fetched, steps;
      }
    }
    WatchedMeans(client, before, store.rows, fetched, now, from, client.now, sent, client.requests);
    newEvents := Some(raised);
  }

  /** The check so far: these rows are checked, the others untouched. */
  ghost predicate Watched(
    client: BinanceClient, before: Table, rows: Table, fetched: map<RowKey, Fetch>, now: Time, from: Time, until: Time,
    sent: nat, asked: nat)
  {
    && from <= until && rows.Keys == before.Keys
    && (forall key <- before :: Checked(before, rows, key, fetched))
    && FetchesSound(client, before, fetched, now, from, until)
    && Asked(fetched.Keys, now, sent, asked)
  }

  /** A check that ended while it marked a row. */
  ghost predicate BrokenOff(
    client: BinanceClient, before: Table, rows: Table, fetched: map<RowKey, Fetch>, now: Time, from: Time, until: Time,
    sent: nat, asked: nat)
  {
    && (forall key <- before :: PartlyChecked(before, rows, key, fetched))
    && FetchesSound(client, before, fetched, now, from, until)
    && Asked(fetched.Keys, now, sent, asked)
  }

  lemma NothingWatched(client: BinanceClient, before: Table, now: Time, sent: nat)
    ensures Watched(client, before, before, map[], now, client.now, client.now, sent, sent)
  {
    hide Checked, Asked, FetchesSound;
    NothingChecked(client, before, now);
    NobodyAsked(now, sent);
    var none: map<RowKey, Fetch> := map[];
    assert none.Keys == {};
  }

  lemma WatchedNext(
    client: BinanceClient, before: Table, rows: Table, fetched: map<RowKey, Fetch>, now: Time, from: Time, middle: Time,
    until: Time, sent: nat, asked: nat, more: nat, key: RowKey, fetch: Fetch, events: seq<PriceEvent>)
    requires client.Valid() && middle <= until
    requires Watched(client, before, rows, fetched, now, from, middle, sent, asked)
    requires key in before && key !in fetched
    requires before[key].entryPrice.Some? && before[key].entryTime.Some? && before[key].columns.Open()
    requires events <= (if fetch.None? then [] else EventsOf(MonitoredAt(before, key), fetch.value))
    requires if now <= key.runTime + HoldOf(key.track) then asked < more <= asked + MONITOR_PAGES
             else fetch.None? && more == asked
    requires fetch.Some? ==>
               Sees(client.Bars(Series(key.market, M1)), before[key].entryTime.value, fetch.value, middle, until)
    ensures var after := MarkEvents(rows, events);
            && (events == (if fetch.None? then [] else EventsOf(MonitoredAt(before, key), fetch.value)) ==>
                  Watched(client, before, after, fetched[key := fetch], now, from, until, sent, more))
            && BrokenOff(client, before, after, fetched[key := fetch], now, from, until, sent, more)
  {
    hide Checked, PartlyChecked, Asked, FetchesSound, EventsOf, MarkEvents, HoldOf, Sees;
    FetchAdded(client, before, fetched, key, fetch, now, from, middle, until);
    CheckedOne(before, rows, key, fetched, fetch, events);
    AskedOne(fetched.Keys, key, now, sent, asked, more);
    assert fetched[key := fetch].Keys == fetched.Keys + {key};
  }

  lemma WatchedMeans(
    client: BinanceClient, before: Table, rows: Table, fetched: map<RowKey, Fetch>, now: Time, from: Time, until: Time,
    sent: nat, asked: nat)
    requires Watched(client, before, rows, fetched, now, from, until, sent, asked)
    ensures forall key <- before :: Checked(before, rows, key, fetched) && PartlyChecked(before, rows, key, fetched)
    ensures FetchesSound(client, before, fetched, now, from, until) && Asked(fetched.Keys, now, sent, asked)
  {
    hide Checked, PartlyChecked, Asked, FetchesSound;
    AllPartly(before, rows, fetched);
  }

  lemma BrokenOffMeans(
    client: BinanceClient, before: Table, rows: Table, fetched: map<RowKey, Fetch>, now: Time, from: Time, until: Time,
    sent: nat, asked: nat)
    requires BrokenOff(client, before, rows, fetched, now, from, until, sent, asked)
    ensures forall key <- before :: PartlyChecked(before, rows, key, fetched)
    ensures FetchesSound(client, before, fetched, now, from, until) && Asked(fetched.Keys, now, sent, asked)
  {
    hide PartlyChecked, Asked, FetchesSound;
  }

  lemma NothingRun(s: State)
    ensures Schedulable(s, []) && Run(s, []) == s
  {
  }

  lemma AllPartly(before: Table, after: Table, fetched: map<RowKey, Fetch>)
    requires forall key <- before :: Checked(before, after, key, fetched)
    ensures forall key <- before :: PartlyChecked(before, after, key, fetched)
  {
    forall key <- before
      ensures PartlyChecked(before, after, key, fetched)
    {
      assert Checked(before, after, key, fetched);
    }
  }

  /** `run_price_monitor`: one check, then one message with what it returned. An exception in the check
      ends the job before any message; a message may be lost. */
  method RunPriceMonitor(store: DataStore, client: BinanceClient, now: Time)
    returns (events: Option<seq<PriceEvent>>, delivered: bool, ghost marked: seq<PriceEvent>, ghost steps: seq<Step>)
    requires client.Valid()
    modifies store`rows, client
    ensures client.Valid()
    ensures events.Some? ==> events.value == marked
    ensures delivered ==> events.Some?
    ensures Schedulable(Calm(old(store.rows), store.runs), steps) && forall step <- steps :: step.Watches()
    ensures Run(Calm(old(store.rows), store.runs), steps)
            == Calm(store.rows, store.runs).(marks := marked, alerts := if delivered then marked else [])
  {
    hide Apply, Enabled, Schedulable, Run, Checked, PartlyChecked, FetchesSound, BinanceClient.Valid;
    ghost var start, fetched := Calm(store.rows, store.runs), map[];
    events, marked, fetched, steps := CheckPriceEvents(store, client, now);
    delivered := false;
    if events.None? {
      return;
    }
    delivered := *;
    ReportStep(Run(start, steps), delivered);
    RunSnoc(start, steps, Report(delivered));
    steps := steps + [Report(delivered)];
    assert [] + marked == marked;
  }

  lemma SnapshotStep(s: State, now: Time, keys: seq<RowKey>, recs: seq<Monitored>)
    requires s.watch.Resting? && Lists(keys, Monitorable(s.rows, now - MAX_HOLD))
    requires |recs| == |keys| && forall i :: 0 <= i < |keys| ==> recs[i] == MonitoredAt(s.rows, keys[i])
    ensures Schedulable(s, [Snapshot(now, keys)])
    ensures Run(s, [Snapshot(now, keys)]) == s.(watch := Watching(now, recs, []))
  {
    RunOne(s, Snapshot(now, keys));
    assert recs == Apply(s, Snapshot(now, keys)).watch.todo;
  }

  /** Marking the scan of one row that has not been checked yet, or the first part of it. */
  lemma CheckedOne(before: Table, rows: Table, key: RowKey, fetched: map<RowKey, Fetch>, fetch: Fetch,
                   events: seq<PriceEvent>)
    requires forall k <- before :: Checked(before, rows, k, fetched)
    requires rows.Keys == before.Keys && key in before && key !in fetched
    requires before[key].entryPrice.Some? && before[key].entryTime.Some? && before[key].columns.Open()
    requires events <= (if fetch.None? then [] else EventsOf(MonitoredAt(before, key), fetch.value))
    ensures MarkEvents(rows, events).Keys == before.Keys
    ensures events == (if fetch.None? then [] else EventsOf(MonitoredAt(before, key), fetch.value)) ==>
              forall k <- before :: Checked(before, MarkEvents(rows, events), k, fetched[key := fetch])
    ensures forall k <- before :: PartlyChecked(before, MarkEvents(rows, events), k, fetched[key := fetch])
  {
    hide EventsOf, MarkEvents;
    var rec := MonitoredAt(before, key);
    assert Checked(before, rows, key, fetched);
    assert rec.(entryTouchedAt := before[key].columns.entryAt) == rec;
    forall event <- events
      ensures KeyOfEvent(event) == key
    {
      EventsName(rec, fetch.value);
    }
    MarkEventsIs(rows, key, events);
    var after, more := MarkEvents(rows, events), fetched[key := fetch];
    forall k <- before
      ensures k != key ==> Checked(before, after, k, more)
      ensures PartlyChecked(before, after, k, more)
    {
      assert Checked(before, rows, k, fetched);
      if k == key {
        assert after[k] == before[k].(columns := before[k].columns.MarkAll(events));
      }
    }
  }

  lemma EventsName(rec: Monitored, bars: seq<Candle>)
    ensures forall event <- EventsOf(rec, bars) :: KeyOfEvent(event) == KeyOfRec(rec)
  {
    ScanNames(rec, bars, 0, rec.entryTouchedAt.Some?);
  }

  // ---- the exchange only appends -------------------------------------------------------------

  /** Two monitor fetches of one position, the second no earlier than the first: the first is a
      prefix of the second, cut or not. This is what makes a schedule of checks `Growing`. */
  lemma LaterFetchExtends(
    bars: seq<Candle>, entry: Time, first: seq<Candle>, second: seq<Candle>, t0: Time, t1: Time, t2: Time, t3: Time)
    requires Printed(bars, M1) && t1 <= t2
    requires Sees(bars, entry, first, t0, t1) && Sees(bars, entry, second, t2, t3)
    ensures first <= second
  {
    hide OpenedBefore, QueryTime, ClosedBy, Printed;
    ClosedByGrows(bars, M1, t1, t2);
    assert |first| <= |second|;
  }
}
