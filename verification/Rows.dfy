/** The `recommendations` table (src/data_store.py): each function is one SQL statement. */
module Rows {
  import opened Domain
  import opened PriceEvents

  /** Primary key. */
  datatype RowKey = RowKey(runTime: Time, market: string, track: string)

  /** What identifies a recommendation to its reader: coin, track and entry bar. */
  datatype EntryKey = EntryKey(market: string, track: string, entryTime: Time)

  datatype Recommendation = Recommendation(
    market: string,
    n: nat,
    hitCount: nat,
    hitRate: real,
    hitRateLower: real,
    expectedReturn: real,
    entryTime: Option<Time>,
    entryPrice: Option<real>,
    maxDrawdown: Option<real>,
    track: string)

  /** The columns `evaluate_pending_outcomes` fills. */
  datatype Outcome = Outcome(reached: bool, realized: real, at: Time)

  datatype Row = Row(
    expectedReturn: real,
    n: nat,
    hitCount: nat,
    maxDrawdown: Option<real>,
    entryTime: Option<Time>,
    entryPrice: Option<real>,
    columns: Columns,
    outcome: Option<Outcome>)

  type Table = map<RowKey, Row>

  /** The row stands for this recommendation. */
  predicate Stands(rows: Table, key: RowKey, entry: EntryKey) {
    key in rows && key.market == entry.market && key.track == entry.track
      && rows[key].entryTime == Some(entry.entryTime)
  }

  predicate Recorded(rows: Table, entry: EntryKey) {
    exists key <- rows :: Stands(rows, key, entry)
  }

  /** The unique index on (market, track, entry_time); NULL entry times never clash. */
  ghost predicate Unique(rows: Table) {
    forall entry, j, k :: Stands(rows, j, entry) && Stands(rows, k, entry) ==> j == k
  }

  // ---- INSERT OR IGNORE --------------------------------------------------------------------

  function NewRow(rec: Recommendation): Row {
    Row(rec.expectedReturn, rec.n, rec.hitCount, rec.maxDrawdown, rec.entryTime, rec.entryPrice, UNMARKED, None)
  }

  function KeyOf(runTime: Time, rec: Recommendation): RowKey {
    RowKey(runTime, rec.market, rec.track)
  }

  predicate Clashes(rows: Table, runTime: Time, rec: Recommendation) {
    || KeyOf(runTime, rec) in rows
    || (rec.entryTime.Some? && Recorded(rows, EntryKey(rec.market, rec.track, rec.entryTime.value)))
  }

  function Insert(rows: Table, runTime: Time, rec: Recommendation): Table {
    if Clashes(rows, runTime, rec) then rows else rows[KeyOf(runTime, rec) := NewRow(rec)]
  }

  function InsertAll(rows: Table, runTime: Time, recs: seq<Recommendation>): Table {
    if recs == [] then rows else Insert(InsertAll(rows, runTime, recs[..|recs| - 1]), runTime, recs[|recs| - 1])
  }

  lemma InsertKeepsUnique(rows: Table, runTime: Time, rec: Recommendation)
    requires Unique(rows)
    ensures Unique(Insert(rows, runTime, rec))
  {
    var after := Insert(rows, runTime, rec);
    forall entry, j, k | Stands(after, j, entry) && Stands(after, k, entry)
      ensures j == k
    {
      assert j in rows ==> Stands(rows, j, entry);
      assert k in rows ==> Stands(rows, k, entry);
    }
  }

  /** The row holds the recommendation's own numbers; nothing has happened to it and nobody judged it. */
  ghost predicate Unjudged(rec: Recommendation, row: Row) {
    && row.n == rec.n && row.hitCount == rec.hitCount && row.expectedReturn == rec.expectedReturn
    && row.maxDrawdown == rec.maxDrawdown && row.entryTime == rec.entryTime && row.entryPrice == rec.entryPrice
    && row.columns.entryAt.None? && row.columns.targetAt.None? && row.columns.stopAt.None? && row.outcome.None?
  }

  /** Inserting keeps existing rows, and new rows belong to this run. */
  lemma {:induction false} InsertAllKeeps(rows: Table, runTime: Time, recs: seq<Recommendation>)
    ensures var after := InsertAll(rows, runTime, recs);
            && (Unique(rows) ==> Unique(after))
            && (forall key <- rows :: key in after && after[key] == rows[key])
            && (forall key <- after :: key !in rows ==>
                  && key.runTime == runTime
                  && exists rec <- recs ::
                       key == KeyOf(runTime, rec) && after[key] == NewRow(rec) && Unjudged(rec, after[key]))
  {
    if recs != [] {
      var front, last := recs[..|recs| - 1], recs[|recs| - 1];
      InsertAllKeeps(rows, runTime, front);
      if Unique(rows) {
        InsertKeepsUnique(InsertAll(rows, runTime, front), runTime, last);
      }
      assert forall rec <- front :: rec in recs;
    }
  }

  // ---- UPDATE ------------------------------------------------------------------------------

  /** `mark_price_event`: only this row, only while the column is NULL. */
  function MarkRow(rows: Table, key: RowKey, kind: Kind, at: Time): Table {
    if key in rows then rows[key := rows[key].(columns := rows[key].columns.Mark(kind, at))] else rows
  }

  /** `record_track_outcome`: this row, without a NULL guard. */
  function RecordRow(rows: Table, key: RowKey, outcome: Outcome): Table {
    if key in rows then rows[key := rows[key].(outcome := Some(outcome))] else rows
  }

  // ---- SELECT ------------------------------------------------------------------------------

  /** `get_monitorable_recommendations`. */
  predicate IsMonitorable(row: Row, key: RowKey, since: Time) {
    key.runTime >= since && row.entryPrice.Some? && row.entryTime.Some? && row.columns.Open()
  }

  function Monitorable(rows: Table, since: Time): set<RowKey> {
    set key <- rows | IsMonitorable(rows[key], key, since)
  }

  function MonitoredAt(rows: Table, key: RowKey): Monitored
    requires key in rows && rows[key].entryPrice.Some? && rows[key].entryTime.Some?
  {
    Monitored(key.runTime, key.market, rows[key].entryPrice.value, rows[key].entryTime.value,
              rows[key].columns.entryAt, key.track)
  }

  /** `get_unevaluated`. */
  function Unevaluated(rows: Table): set<RowKey> {
    set key <- rows | rows[key].outcome.None? && rows[key].entryTime.Some?
  }

  /** `get_announced_entries`. */
  function Announced(rows: Table, since: Time): set<EntryKey> {
    set key <- rows | rows[key].entryTime.Some? && rows[key].entryTime.value >= since
      :: EntryKey(key.market, key.track, rows[key].entryTime.value)
  }

  lemma AnnouncedIs(rows: Table, since: Time, entry: EntryKey)
    ensures entry in Announced(rows, since) <==> Recorded(rows, entry) && entry.entryTime >= since
  {
    if Recorded(rows, entry) && entry.entryTime >= since {
      var key :| key in rows && Stands(rows, key, entry);
      assert entry == EntryKey(key.market, key.track, rows[key].entryTime.value);
    }
    if entry in Announced(rows, since) {
      var key :| key in rows && rows[key].entryTime.Some? && rows[key].entryTime.value >= since
                 && entry == EntryKey(key.market, key.track, rows[key].entryTime.value);
      assert Stands(rows, key, entry);
    }
  }

  // ---- what may change ---------------------------------------------------------------------

  /** The columns fixed at insertion are unchanged. */
  predicate SameStatics(before: Row, after: Row) {
    after == before.(columns := after.columns, outcome := after.outcome)
  }

  /** NULL may become a value once; a value never changes. */
  predicate WrittenOnce<T(==)>(before: Option<T>, after: Option<T>) {
    before.Some? ==> after == before
  }

  predicate RowPersists(before: Row, after: Row) {
    && SameStatics(before, after)
    && WrittenOnce(before.columns.entryAt, after.columns.entryAt)
    && WrittenOnce(before.columns.targetAt, after.columns.targetAt)
    && WrittenOnce(before.columns.stopAt, after.columns.stopAt)
    && WrittenOnce(before.outcome, after.outcome)
  }

  ghost predicate Persists(before: Table, after: Table) {
    forall key <- before :: key in after && RowPersists(before[key], after[key])
  }
}
