/** Live performance of the announced recommendations (src/data_store.py, `get_live_performance`):
    rows are grouped by track, coin and entry bar, and only resolved groups count. */
module Performance {
  import opened Domain
  import opened PriceEvents
  import opened Rows
  import opened Store

  datatype Counts = Counts(resolved: nat, hit: nat)

  datatype Report = Report(byTrack: map<string, Counts>, total: Counts)

  // ---- the grouped query -------------------------------------------------------------------

  function EntryAt(rows: Table, key: RowKey): EntryKey
    requires key in rows && rows[key].entryTime.Some?
  {
    EntryKey(key.market, key.track, rows[key].entryTime.value)
  }

  function Groups(rows: Table): set<EntryKey> {
    set key <- rows | rows[key].entryTime.Some? :: EntryAt(rows, key)
  }

  function EntriesAt(rows: Table, keys: set<RowKey>): set<EntryKey> {
    set key <- keys | key in rows && rows[key].entryTime.Some? :: EntryAt(rows, key)
  }

  /** MAX(target_hit_at IS NOT NULL) over the group. */
  predicate HitIn(rows: Table, entry: EntryKey) {
    exists key <- rows :: Stands(rows, key, entry) && rows[key].columns.targetAt.Some?
  }

  predicate StoppedIn(rows: Table, entry: EntryKey) {
    exists key <- rows :: Stands(rows, key, entry) && rows[key].columns.stopAt.Some?
  }

  function Resolved(rows: Table): set<EntryKey> {
    set entry <- Groups(rows) | HitIn(rows, entry) || StoppedIn(rows, entry)
  }

  function Hits(rows: Table): set<EntryKey> {
    set entry <- Groups(rows) | HitIn(rows, entry)
  }

  function OfTrack(entries: set<EntryKey>, track: string): set<EntryKey> {
    set entry <- entries | entry.track == track
  }

  function Tracks(entries: set<EntryKey>): set<string> {
    set entry <- entries :: entry.track
  }

  function CountsOf(rows: Table, entries: set<EntryKey>): Counts {
    Counts(|entries|, |set entry <- entries | HitIn(rows, entry)|)
  }

  // ---- the report ----------------------------------------------------------------------------

  lemma CountsAdd(rows: Table, a: set<EntryKey>, b: set<EntryKey>)
    requires a !! b
    ensures var c, d := CountsOf(rows, a), CountsOf(rows, b);
            CountsOf(rows, a + b) == Counts(c.resolved + d.resolved, c.hit + d.hit)
  {
    hide HitIn;
    var hits, more := set e <- a | HitIn(rows, e), set e <- b | HitIn(rows, e);
    assert (set e <- a + b | HitIn(rows, e)) == hits + more && hits !! more;
  }

  lemma CountsOne(rows: Table, entry: EntryKey)
    ensures CountsOf(rows, {entry}) == Counts(1, if HitIn(rows, entry) then 1 else 0)
  {
    hide HitIn;
    var only := {entry};
    var hits := set e <- only | HitIn(rows, e);
    if HitIn(rows, entry) {
      assert hits == {entry};
    } else {
      assert hits == {};
    }
    assert CountsOf(rows, only) == Counts(1, |hits|);
  }

  lemma AddToTrack(rows: Table, done: set<EntryKey>, entry: EntryKey, track: string)
    requires entry !in done
    ensures CountsOf(rows, OfTrack(done + {entry}, track)) ==
            if entry.track != track then CountsOf(rows, OfTrack(done, track))
            else var c := CountsOf(rows, OfTrack(done, track));
                 Counts(c.resolved + 1, c.hit + if HitIn(rows, entry) then 1 else 0)
  {
    hide HitIn, CountsOf;
    var before, after := OfTrack(done, track), OfTrack(done + {entry}, track);
    if entry.track != track {
      assert after == before;
    } else {
      assert after == before + {entry};
      CountsAdd(rows, before, {entry});
      CountsOne(rows, entry);
    }
  }

  /** The groups of the tracks summed so far. */
  function OfTracks(entries: set<EntryKey>, tracks: set<string>): set<EntryKey> {
    set entry <- entries | entry.track in tracks
  }

  lemma AddTrack(rows: Table, entries: set<EntryKey>, tracks: set<string>, track: string)
    requires track !in tracks
    ensures var c, d := CountsOf(rows, OfTracks(entries, tracks)), CountsOf(rows, OfTrack(entries, track));
            CountsOf(rows, OfTracks(entries, tracks + {track})) == Counts(c.resolved + d.resolved, c.hit + d.hit)
  {
    hide CountsOf;
    var earlierSum, added := OfTracks(entries, tracks), OfTrack(entries, track);
    assert OfTracks(entries, tracks + {track}) == earlierSum + added && earlierSum !! added;
    CountsAdd(rows, earlierSum, added);
  }

  ghost predicate CountsTracks(rows: Table, byTrack: map<string, Counts>, done: set<EntryKey>) {
    && byTrack.Keys == Tracks(done)
    && forall track <- byTrack :: byTrack[track] == CountsOf(rows, OfTrack(done, track))
  }

  function CountIn(byTrack: map<string, Counts>, track: string, hit: bool): map<string, Counts> {
    var stats := if track in byTrack then byTrack[track] else Counts(0, 0);
    byTrack[track := Counts(stats.resolved + 1, stats.hit + if hit then 1 else 0)]
  }

  lemma CountNext(rows: Table, byTrack: map<string, Counts>, done: set<EntryKey>, entry: EntryKey)
    requires CountsTracks(rows, byTrack, done) && entry !in done
    ensures CountsTracks(rows, CountIn(byTrack, entry.track, HitIn(rows, entry)), done + {entry})
  {
    hide HitIn, CountsOf;
    var after := CountIn(byTrack, entry.track, HitIn(rows, entry));
    forall track <- after
      ensures after[track] == CountsOf(rows, OfTrack(done + {entry}, track))
    {
      AddToTrack(rows, done, entry, track);
      if track !in byTrack {
        NoneOfTrack(rows, done, track);
      }
    }
    assert Tracks(done + {entry}) == Tracks(done) + {entry.track};
  }

  lemma NoneOfTrack(rows: Table, done: set<EntryKey>, track: string)
    requires track !in Tracks(done)
    ensures CountsOf(rows, OfTrack(done, track)) == Counts(0, 0)
  {
    assert OfTrack(done, track) == {};
    assert (set e <- OfTrack(done, track) | HitIn(rows, e)) == {};
  }

  /** The grouping loop: per track the resolved groups and the hits among them. */
  method CountByTrack(rows: Table) returns (byTrack: map<string, Counts>)
    ensures CountsTracks(rows, byTrack, Resolved(rows))
  {
    hide HitIn, StoppedIn, CountsTracks;
    byTrack := map[];
    var left := Groups(rows);
    ghost var done: set<EntryKey> := {};
    NothingCounted(rows);
    while left != {}
      invariant done == Resolved(rows) - left && left <= Groups(rows)
      invariant CountsTracks(rows, byTrack, done)
      decreases |left|
    {
      var entry :| entry in left;
      left := left - {entry};
      var hit, stopped := HitIn(rows, entry), StoppedIn(rows, entry);
      if !hit && !stopped { continue; }
      CountNext(rows, byTrack, done, entry);
      byTrack := CountIn(byTrack, entry.track, hit);
      done := done + {entry};
    }
    assert done == Resolved(rows);
  }

  lemma NothingCounted(rows: Table)
    ensures CountsTracks(rows, map[], {})
  {
  }

  /** `get_live_performance`: the counts per track, and their sums, which are the counts over
      all resolved groups. */
  method GetLivePerformance(store: DataStore) returns (report: Report)
    ensures report.byTrack.Keys == Tracks(Resolved(store.rows))
    ensures forall track <- report.byTrack ::
              report.byTrack[track] == CountsOf(store.rows, OfTrack(Resolved(store.rows), track))
    ensures report.total == Counts(|Resolved(store.rows)|, |Hits(store.rows)|)
  {
    hide HitIn, StoppedIn, CountsOf;
    var rows := store.rows;
    var byTrack := CountByTrack(rows);
    ghost var done := Resolved(rows);
    var total, tracks := Counts(0, 0), byTrack.Keys;
    ghost var summed: set<string> := {};
    NoTracks(rows, done);
    while tracks != {}
      invariant summed == byTrack.Keys - tracks && tracks <= byTrack.Keys
      invariant total == CountsOf(rows, OfTracks(done, summed))
      decreases |tracks|
    {
      var track :| track in tracks;
      AddTrack(rows, done, summed, track);
      total := Counts(total.resolved + byTrack[track].resolved, total.hit + byTrack[track].hit);
      tracks, summed := tracks - {track}, summed + {track};
    }
    AllTracks(rows);
    assert summed == Tracks(done);
    report := Report(byTrack, total);
  }

  lemma NoTracks(rows: Table, entries: set<EntryKey>)
    ensures CountsOf(rows, OfTracks(entries, {})) == Counts(0, 0)
  {
    assert OfTracks(entries, {}) == {};
    assert (set e <- OfTracks(entries, {}) | HitIn(rows, e)) == {};
  }

  lemma AllTracks(rows: Table)
    ensures CountsOf(rows, OfTracks(Resolved(rows), Tracks(Resolved(rows)))) == Counts(|Resolved(rows)|, |Hits(rows)|)
  {
    assert OfTracks(Resolved(rows), Tracks(Resolved(rows))) == Resolved(rows);
    assert (set entry <- Resolved(rows) | HitIn(rows, entry)) == Hits(rows);
  }

  // ---- grouped counts are plain counts -------------------------------------------------------

  /** Announced rows whose position is over. */
  function ResolvedRows(rows: Table): set<RowKey> {
    set key <- rows | rows[key].entryTime.Some? && !rows[key].columns.Open()
  }

  function HitRows(rows: Table): set<RowKey> {
    set key <- rows | rows[key].entryTime.Some? && rows[key].columns.targetAt.Some?
  }

  lemma {:induction false} DistinctEntries(rows: Table, keys: set<RowKey>)
    requires Unique(rows) && forall key <- keys :: key in rows && rows[key].entryTime.Some?
    ensures |EntriesAt(rows, keys)| == |keys|
  {
    if keys != {} {
      var key :| key in keys;
      var rest := keys - {key};
      DistinctEntries(rows, rest);
      var entries := EntriesAt(rows, rest);
      assert EntryAt(rows, key) !in entries by {
        forall k <- rest
          ensures EntryAt(rows, k) != EntryAt(rows, key)
        {
          if EntryAt(rows, k) == EntryAt(rows, key) {
            assert Stands(rows, k, EntryAt(rows, key)) && Stands(rows, key, EntryAt(rows, key));
          }
        }
      }
      assert EntriesAt(rows, keys) == entries + {EntryAt(rows, key)};
    }
  }

  lemma GroupsAreRows(rows: Table)
    ensures Resolved(rows) == EntriesAt(rows, ResolvedRows(rows))
    ensures Hits(rows) == EntriesAt(rows, HitRows(rows))
  {
    forall entry
      ensures entry in Resolved(rows) <==> entry in EntriesAt(rows, ResolvedRows(rows))
      ensures entry in Hits(rows) <==> entry in EntriesAt(rows, HitRows(rows))
    {
      if HitIn(rows, entry) {
        var key :| key in rows && Stands(rows, key, entry) && rows[key].columns.targetAt.Some?;
        assert entry == EntryAt(rows, key) && key in HitRows(rows) && key in ResolvedRows(rows);
      }
      if StoppedIn(rows, entry) {
        var key :| key in rows && Stands(rows, key, entry) && rows[key].columns.stopAt.Some?;
        assert entry == EntryAt(rows, key) && key in ResolvedRows(rows);
      }
      forall key <- ResolvedRows(rows) | EntryAt(rows, key) == entry
        ensures entry in Resolved(rows)
      {
        assert Stands(rows, key, entry);
      }
      forall key <- HitRows(rows) | EntryAt(rows, key) == entry
        ensures entry in Hits(rows)
      {
        assert Stands(rows, key, entry);
      }
    }
  }

  /** Under the unique index the grouped counts are plain row counts. */
  lemma PlainCounts(rows: Table)
    requires Unique(rows)
    ensures |Resolved(rows)| == |ResolvedRows(rows)|
    ensures |Hits(rows)| == |HitRows(rows)|
    ensures |Hits(rows)| <= |Resolved(rows)|
  {
    GroupsAreRows(rows);
    DistinctEntries(rows, ResolvedRows(rows));
    DistinctEntries(rows, HitRows(rows));
    Smaller(Hits(rows), Resolved(rows));
  }

  lemma {:induction false} Smaller<T>(a: set<T>, b: set<T>)
    requires a <= b
    ensures |a| <= |b|
  {
    if a != {} {
      var x :| x in a;
      Smaller(a - {x}, b - {x});
    }
  }

  // ---- how the report moves ------------------------------------------------------------------

  /** Whatever the ledger does, no resolved group and no hit is ever lost. */
  lemma CountsNeverDecrease(before: Table, after: Table, track: string)
    requires Persists(before, after)
    ensures Resolved(before) <= Resolved(after) && Hits(before) <= Hits(after)
    ensures |Resolved(before)| <= |Resolved(after)| && |Hits(before)| <= |Hits(after)|
    ensures |OfTrack(Resolved(before), track)| <= |OfTrack(Resolved(after), track)|
  {
    forall entry <- Resolved(before)
      ensures entry in Resolved(after) && (entry in Hits(before) ==> entry in Hits(after))
    {
      if HitIn(before, entry) {
        var key :| key in before && Stands(before, key, entry) && before[key].columns.targetAt.Some?;
        assert Stands(after, key, entry) && after[key].columns.targetAt.Some?;
        assert entry == EntryAt(after, key);
      } else {
        var key :| key in before && Stands(before, key, entry) && before[key].columns.stopAt.Some?;
        assert Stands(after, key, entry) && after[key].columns.stopAt.Some?;
        assert entry == EntryAt(after, key);
      }
    }
    Smaller(Resolved(before), Resolved(after));
    Smaller(Hits(before), Hits(after));
    Smaller(OfTrack(Resolved(before), track), OfTrack(Resolved(after), track));
  }

  lemma OpenRowUnresolved(rows: Table, key: RowKey)
    requires Unique(rows) && key in rows && rows[key].entryTime.Some? && rows[key].columns.Open()
    ensures EntryAt(rows, key) !in EntriesAt(rows, ResolvedRows(rows))
  {
    var entry := EntryAt(rows, key);
    assert Stands(rows, key, entry);
    forall k <- ResolvedRows(rows)
      ensures EntryAt(rows, k) != entry
    {
      assert EntryAt(rows, k) == entry ==> Stands(rows, k, entry);
    }
  }

  /** The first closing mark of a position resolves exactly its own group. */
  lemma FirstClosingMarkResolvesOne(rows: Table, key: RowKey, kind: Kind, at: Time)
    requires Unique(rows) && key in rows && rows[key].entryTime.Some? && rows[key].columns.Open()
    requires kind != EntryTouched
    ensures var after := MarkRow(rows, key, kind, at);
            && EntryAt(rows, key) !in Resolved(rows)
            && Resolved(after) == Resolved(rows) + {EntryAt(rows, key)}
            && Hits(after) == (if kind == TargetHit then Hits(rows) + {EntryAt(rows, key)} else Hits(rows))
            && |Resolved(after)| == |Resolved(rows)| + 1
  {
    hide HitIn, StoppedIn, Resolved, Hits, ResolvedRows, HitRows, EntriesAt, MarkRow, Unique;
    var after := MarkRow(rows, key, kind, at);
    GroupsAreRows(rows);
    GroupsAreRows(after);
    MarkedRows(rows, key, kind, at);
    OpenRowUnresolved(rows, key);
    Images(rows, after, ResolvedRows(rows), key);
    Images(rows, after, HitRows(rows), key);
  }

  lemma MarkedRows(rows: Table, key: RowKey, kind: Kind, at: Time)
    requires key in rows && rows[key].entryTime.Some? && rows[key].columns.Open() && kind != EntryTouched
    ensures var after := MarkRow(rows, key, kind, at);
            && ResolvedRows(after) == ResolvedRows(rows) + {key}
            && HitRows(after) == (if kind == TargetHit then HitRows(rows) + {key} else HitRows(rows))
            && (forall k <- ResolvedRows(rows) + HitRows(rows) + {key} ::
                  k in rows && k in after && rows[k].entryTime.Some? && after[k].entryTime == rows[k].entryTime)
  {
  }

  lemma Images(rows: Table, after: Table, keys: set<RowKey>, key: RowKey)
    requires forall k <- keys + {key} ::
               k in rows && k in after && rows[k].entryTime.Some? && after[k].entryTime == rows[k].entryTime
    ensures EntriesAt(after, keys + {key}) == EntriesAt(rows, keys) + {EntryAt(rows, key)}
    ensures EntriesAt(after, keys) == EntriesAt(rows, keys)
  {
    assert key in keys + {key};
    assert forall k <- keys + {key} :: EntryAt(after, k) == EntryAt(rows, k);
  }
}
