/** The data store (src/data_store.py): one method per transaction, each stated as the change it
    makes to the tables. */
module Store {
  import opened Domain
  import opened Exchange
  import opened CandleTable
  import opened PriceEvents
  import opened Rows
  import opened Ledger

  function StoredIn(candles: map<Series, seq<Candle>>, s: Series): seq<Candle> {
    if s in candles then candles[s] else []
  }

  function EarliestIn(earliest: map<Series, Time>, s: Series): Option<Time> {
    if s in earliest then Some(earliest[s]) else None
  }

  /** The record carries its row's own values. */
  ghost predicate Shows(rec: Monitored, key: RowKey, rows: Table) {
    && key in rows && rec.runTime == key.runTime && rec.market == key.market && rec.track == key.track
    && Some(rec.entryPrice) == rows[key].entryPrice && Some(rec.entryTime) == rows[key].entryTime
    && rec.entryTouchedAt == rows[key].columns.entryAt
  }

  class DataStore {
    /** Stored bars of each series, by opening time. */
    var candles: map<Series, seq<Candle>>
    /** Cached earliest bar of the exchange. */
    var earliest: map<Series, Time>
    var rows: Table
    var runs: set<Time>

    constructor ()
      ensures candles == map[] && earliest == map[] && rows == map[] && runs == {}
    {
      candles, earliest, rows, runs := map[], map[], map[], {};
    }

    function Stored(s: Series): seq<Candle>
      reads this
    {
      StoredIn(candles, s)
    }

    function Earliest(s: Series): Option<Time>
      reads this
    {
      EarliestIn(earliest, s)
    }

    // ---- candles ---------------------------------------------------------------------------

    /** `upsert_candles`. */
    method UpsertCandles(s: Series, news: seq<Candle>)
      modifies this`candles
      ensures candles == if news == [] then old(candles) else old(candles)[s := PutAll(old(Stored(s)), news)]
    {
      if news == [] {
        return;
      }
      var table := Stored(s);
      for i := 0 to |news|
        invariant candles == old(candles)
        invariant table == PutAll(old(Stored(s)), news[..i])
      {
        assert news[..i + 1][..i] == news[..i];
        table := Put(table, news[i]);
      }
      assert news[..|news|] == news;
      candles := candles[s := table];
    }

    /** `get_first_candle_time`: MIN(candle_time). */
    function FirstTime(s: Series): Option<Time>
      reads this
    {
      if Stored(s) == [] then None else Some(Stored(s)[0].time)
    }

    /** `get_last_candle_time`: MAX(candle_time). */
    function LastTime(s: Series): Option<Time>
      reads this
    {
      if Stored(s) == [] then None else Some(Stored(s)[|Stored(s)| - 1].time)
    }

    /** `set_exchange_earliest`. */
    method SetExchangeEarliest(s: Series, time: Time)
      modifies this`earliest
      ensures earliest == old(earliest)[s := time]
    {
      earliest := earliest[s := time];
    }

    // ---- recommendations -------------------------------------------------------------------

    /** `save_run`: one transaction; a repeated run time violates the primary key. */
    method SaveRun(runTime: Time, recs: seq<Recommendation>) returns (ok: bool)
      modifies this`rows, this`runs
      ensures ok <==> runTime !in old(runs)
      ensures rows == if ok then InsertAll(old(rows), runTime, recs) else old(rows)
      ensures runs == old(runs) + {runTime}
    {
      if runTime in runs {
        return false;
      }
      runs := runs + {runTime};
      for i := 0 to |recs|
        invariant rows == InsertAll(old(rows), runTime, recs[..i])
        invariant runs == old(runs) + {runTime}
      {
        assert recs[..i + 1][..i] == recs[..i];
        rows := Insert(rows, runTime, recs[i]);
      }
      assert recs[..|recs|] == recs;
      return true;
    }

    /** `mark_price_event`: the named column of the named row, once; every other row and every
        other column keeps its value. */
    method MarkPriceEvent(key: RowKey, kind: Kind, at: Time)
      modifies this`rows
      ensures rows == MarkRow(old(rows), key, kind, at)
      ensures forall other <- old(rows) :: other in rows && (other != key ==> rows[other] == old(rows)[other])
      ensures key in old(rows) ==>
                var before, after := old(rows)[key], rows[key];
                && SameStatics(before, after) && after.outcome == before.outcome
                && (forall k :: k != kind ==> after.columns.Of(k) == before.columns.Of(k))
                && after.columns.Of(kind) == if before.columns.Of(kind).Some? then before.columns.Of(kind) else Some(at)
    {
      if key in rows && rows[key].columns.Of(kind).None? {
        rows := rows[key := rows[key].(columns := rows[key].columns.Mark(kind, at))];
      }
    }

    /** `record_track_outcome`: overwrites the outcome columns of the named row. */
    method RecordTrackOutcome(key: RowKey, outcome: Outcome)
      modifies this`rows
      ensures rows == RecordRow(old(rows), key, outcome)
    {
      if key in rows {
        rows := rows[key := rows[key].(outcome := Some(outcome))];
      }
    }

    /** `get_announced_entries`: every recorded entry not older than `since`, each once however many
        rows stand for it, and no other. */
    method GetAnnouncedEntries(since: Time) returns (entries: set<EntryKey>)
      ensures forall entry :: entry in entries <==> Recorded(rows, entry) && entry.entryTime >= since
      ensures entries == Announced(rows, since)
    {
      hide Recorded, Announced;
      entries := Announced(rows, since);
      forall entry
        ensures entry in entries <==> Recorded(rows, entry) && entry.entryTime >= since
      {
        AnnouncedIs(rows, since, entry);
      }
    }

    /** `get_monitorable_recommendations`: open rows since `since`, ORDER BY run_time. */
    method GetMonitorable(since: Time) returns (keys: seq<RowKey>, recs: seq<Monitored>)
      ensures Lists(keys, Monitorable(rows, since))
      ensures forall key :: key in keys <==>
                && key in rows && since <= key.runTime && rows[key].entryPrice.Some? && rows[key].entryTime.Some?
                && rows[key].columns.targetAt.None? && rows[key].columns.stopAt.None?
      ensures |recs| == |keys| && forall i :: 0 <= i < |keys| ==> Shows(recs[i], keys[i], rows)
      ensures |recs| == |keys| && forall i :: 0 <= i < |keys| ==> recs[i] == MonitoredAt(rows, keys[i])
      ensures forall i, j :: 0 <= i < j < |keys| ==> keys[i].runTime <= keys[j].runTime
    {
      hide Partly, ByRun, EarliestOf;
      keys, recs := [], [];
      var left := Monitorable(rows, since);
      PartlyStart(left);
      while left != {}
        invariant Partly(keys, left, Monitorable(rows, since)) && ByRun(keys, left) && left <= Monitorable(rows, since)
        invariant |recs| == |keys| && forall i :: 0 <= i < |keys| ==>
                  keys[i] in Monitorable(rows, since) && recs[i] == MonitoredAt(rows, keys[i])
        decreases |left|
      {
        EarliestRun(left);
        var key :| key in left && EarliestOf(key, left);
        PartlyStep(keys, left, Monitorable(rows, since), key);
        ByRunStep(keys, left, key);
        keys, recs, left := keys + [key], recs + [MonitoredAt(rows, key)], left - {key};
      }
      PartlyDone(keys, Monitorable(rows, since));
      assert forall key <- keys :: key in Monitorable(rows, since);
      ByRunDone(keys);
    }

    /** `get_unevaluated`, in the order the database chooses. */
    method GetUnevaluated() returns (keys: seq<RowKey>, snaps: seq<Snap>)
      ensures Lists(keys, Unevaluated(rows))
      ensures forall key :: key in keys <==> key in rows && rows[key].entryTime.Some? && rows[key].outcome.None?
      ensures |snaps| == |keys| && forall i :: 0 <= i < |keys| ==> snaps[i] == SnapAt(rows, keys[i])
    {
      hide Partly;
      keys, snaps := [], [];
      var left := Unevaluated(rows);
      PartlyStart(left);
      while left != {}
        invariant Partly(keys, left, Unevaluated(rows)) && left <= Unevaluated(rows)
        invariant |snaps| == |keys| && forall i :: 0 <= i < |keys| ==>
                  keys[i] in Unevaluated(rows) && snaps[i] == SnapAt(rows, keys[i])
        decreases |left|
      {
        var key :| key in left;
        PartlyStep(keys, left, Unevaluated(rows), key);
        keys, snaps, left := keys + [key], snaps + [SnapAt(rows, key)], left - {key};
      }
      PartlyDone(keys, Unevaluated(rows));
      assert forall key <- keys :: key in Unevaluated(rows);
    }
  }

  // ---- listing a selection -------------------------------------------------------------------

  /** The selected rows are split between the list, which has no repeats, and what is left. */
  ghost predicate Partly(keys: seq<RowKey>, left: set<RowKey>, selected: set<RowKey>) {
    && (forall key <- selected :: key in keys || key in left)
    && (forall i :: 0 <= i < |keys| ==> keys[i] in selected && keys[i] !in left)
    && (forall i, j :: 0 <= i < j < |keys| ==> keys[i] != keys[j])
  }

  lemma PartlyStart(selected: set<RowKey>)
    ensures Partly([], selected, selected) && ByRun([], selected)
  {
  }

  lemma PartlyStep(keys: seq<RowKey>, left: set<RowKey>, selected: set<RowKey>, key: RowKey)
    requires Partly(keys, left, selected) && key in left && left <= selected
    ensures Partly(keys + [key], left - {key}, selected)
  {
  }

  lemma PartlyDone(keys: seq<RowKey>, selected: set<RowKey>)
    requires Partly(keys, {}, selected)
    ensures Lists(keys, selected)
  {
  }

  /** The list is in run order, and nothing left is from an earlier run. */
  ghost predicate ByRun(keys: seq<RowKey>, left: set<RowKey>) {
    && (forall i, j :: 0 <= i < j < |keys| ==> keys[i].runTime <= keys[j].runTime)
    && (forall i, key :: 0 <= i < |keys| && key in left ==> keys[i].runTime <= key.runTime)
  }

  predicate EarliestOf(key: RowKey, keys: set<RowKey>) {
    key in keys && forall other <- keys :: key.runTime <= other.runTime
  }

  lemma ByRunStep(keys: seq<RowKey>, left: set<RowKey>, key: RowKey)
    requires ByRun(keys, left) && EarliestOf(key, left)
    ensures ByRun(keys + [key], left - {key}) && key in left
  {
  }

  lemma ByRunDone(keys: seq<RowKey>)
    requires ByRun(keys, {})
    ensures forall i, j :: 0 <= i < j < |keys| ==> keys[i].runTime <= keys[j].runTime
  {
  }

  lemma {:induction false} EarliestRun(keys: set<RowKey>)
    requires keys != {}
    ensures exists key <- keys :: EarliestOf(key, keys)
  {
    var any :| any in keys;
    if keys != {any} {
      var rest := keys - {any};
      assert rest == {} ==> keys == {any};
      EarliestRun(rest);
      var least :| least in rest && EarliestOf(least, rest);
      var key := if any.runTime < least.runTime then any else least;
      assert forall other <- keys :: other == any || other in rest;
      assert key in keys && forall other <- keys :: key.runTime <= other.runTime;
      assert EarliestOf(key, keys);
    } else {
      assert EarliestOf(any, keys);
    }
  }
}
