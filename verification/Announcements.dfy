/** Each recommendation is announced at most once (src/pipeline.py, `_drop_already_announced` and
    the step order of `run_recommendation_pipeline`). */
module Announcements {
  import opened Domain
  import opened Rows
  import opened Ledger

  function EntryOf(rec: Recommendation): EntryKey
    requires rec.entryTime.Some?
  {
    EntryKey(rec.market, rec.track, rec.entryTime.value)
  }

  ghost predicate Offers(recs: seq<Recommendation>, entry: EntryKey) {
    exists rec <- recs :: rec.entryTime.Some? && EntryOf(rec) == entry
  }

  ghost predicate NoRepeats(entries: seq<EntryKey>) {
    forall i, j :: 0 <= i < j < |entries| ==> entries[i] != entries[j]
  }

  /** A generated list: entries at most ten days old, one per coin and track. */
  ghost predicate Current(recs: seq<Recommendation>, now: Time) {
    && (forall rec <- recs :: rec.entryTime.Some? && rec.entryTime.value >= now - ANNOUNCE_MEMORY)
    && (forall i, j :: 0 <= i < j < |recs| ==> recs[i].market != recs[j].market || recs[i].track != recs[j].track)
  }

  // ---- the filter --------------------------------------------------------------------------

  lemma {:induction false} DropKeeps(recs: seq<Recommendation>, announced: set<EntryKey>)
    ensures forall rec <- recs ::
              rec in DropAnnounced(recs, announced) <==> rec.entryTime.None? || EntryOf(rec) !in announced
    ensures forall rec <- DropAnnounced(recs, announced) :: rec in recs
  {
    if recs != [] {
      DropKeeps(recs[..|recs| - 1], announced);
    }
  }

  lemma {:induction false} EntriesAre(recs: seq<Recommendation>, entry: EntryKey)
    ensures entry in EntriesOf(recs) <==> Offers(recs, entry)
  {
    if recs != [] {
      var front, last := recs[..|recs| - 1], recs[|recs| - 1];
      EntriesAre(front, entry);
      assert forall rec <- front :: rec in recs;
    }
  }

  /** An entry offered to a run is announced by it unless it is recorded and at most ten days
      old: a recorded entry is announced again exactly when a later run still offers it after
      the memory has expired. */
  lemma AnnouncedAgainIff(rows: Table, now: Time, recs: seq<Recommendation>, entry: EntryKey)
    requires Offers(recs, entry)
    ensures entry in EntriesOf(DropAnnounced(recs, Announced(rows, now - ANNOUNCE_MEMORY)))
            <==> !(Recorded(rows, entry) && entry.entryTime >= now - 10 * 86_400_000_000)
  {
    var announced := Announced(rows, now - ANNOUNCE_MEMORY);
    var news := DropAnnounced(recs, announced);
    AnnouncedIs(rows, now - ANNOUNCE_MEMORY, entry);
    EntriesAre(news, entry);
    DropKeeps(recs, announced);
  }

  lemma {:induction false} DropKeepsDistinct(recs: seq<Recommendation>, announced: set<EntryKey>, now: Time)
    requires Current(recs, now)
    ensures Current(DropAnnounced(recs, announced), now)
    ensures |DropAnnounced(recs, announced)| <= |recs|
  {
    DropKeeps(recs, announced);
    if recs != [] {
      var front, last := recs[..|recs| - 1], recs[|recs| - 1];
      assert forall rec <- front :: rec in recs;
      DropKeepsDistinct(front, announced, now);
      DropKeeps(front, announced);
      var kept := DropAnnounced(front, announced);
      forall i | 0 <= i < |kept|
        ensures kept[i].market != last.market || kept[i].track != last.track
      {
        assert kept[i] in front;
      }
    }
  }

  lemma {:induction false} EntriesDistinct(recs: seq<Recommendation>, now: Time)
    requires Current(recs, now)
    ensures NoRepeats(EntriesOf(recs))
  {
    if recs != [] {
      var front, last := recs[..|recs| - 1], recs[|recs| - 1];
      assert forall rec <- front :: rec in recs;
      EntriesDistinct(front, now);
      EntriesAre(front, EntryOf(last));
    }
  }

  // ---- storing what is announced -----------------------------------------------------------

  lemma InsertRecords(rows: Table, now: Time, rec: Recommendation)
    requires rec.entryTime.Some? && !Clashes(rows, now, rec)
    ensures forall entry :: Recorded(Insert(rows, now, rec), entry) <==> Recorded(rows, entry) || entry == EntryOf(rec)
  {
    var after := Insert(rows, now, rec);
    assert Stands(after, KeyOf(now, rec), EntryOf(rec));
    forall entry
      ensures Recorded(after, entry) <==> Recorded(rows, entry) || entry == EntryOf(rec)
    {
      if Recorded(rows, entry) {
        var key :| key in rows && Stands(rows, key, entry);
        assert Stands(after, key, entry);
      }
      if Recorded(after, entry) {
        var key :| key in after && Stands(after, key, entry);
        assert key in rows ==> Stands(rows, key, entry);
      }
    }
  }

  lemma LastIsNew(news: seq<Recommendation>, now: Time)
    requires news != [] && Current(news, now)
    ensures var front, last := news[..|news| - 1], news[|news| - 1];
            && !Offers(front, EntryOf(last))
            && forall rec <- front :: KeyOf(now, rec) != KeyOf(now, last)
  {
    var front, last := news[..|news| - 1], news[|news| - 1];
    forall rec <- front
      ensures KeyOf(now, rec) != KeyOf(now, last)
    {
      var i :| 0 <= i < |front| && front[i] == rec;
      assert news[i].market != news[|news| - 1].market || news[i].track != news[|news| - 1].track;
    }
  }

  lemma NoClash(rows: Table, before: Table, now: Time, front: seq<Recommendation>, last: Recommendation)
    requires last.entryTime.Some? && !Recorded(rows, EntryOf(last)) && !Offers(front, EntryOf(last))
    requires forall key <- rows :: key.runTime != now
    requires forall rec <- front :: KeyOf(now, rec) != KeyOf(now, last)
    requires forall key <- before :: key in rows || exists rec <- front :: key == KeyOf(now, rec)
    requires forall entry :: Recorded(before, entry) <==> Recorded(rows, entry) || Offers(front, entry)
    ensures !Clashes(before, now, last)
  {
    hide Recorded;
  }

  /** A new run's rows are all inserted: every announced entry has its row. */
  lemma {:induction false} AllStored(rows: Table, now: Time, news: seq<Recommendation>)
    requires Current(news, now)
    requires forall key <- rows :: key.runTime != now
    requires forall rec <- news :: !Recorded(rows, EntryOf(rec))
    ensures forall key <- InsertAll(rows, now, news) :: key in rows || exists rec <- news :: key == KeyOf(now, rec)
    ensures forall entry ::
              Recorded(InsertAll(rows, now, news), entry) <==> Recorded(rows, entry) || Offers(news, entry)
  {
    hide Recorded, Clashes;
    if news != [] {
      var front, last := news[..|news| - 1], news[|news| - 1];
      assert news == front + [last];
      AllStored(rows, now, front);
      var before := InsertAll(rows, now, front);
      LastIsNew(news, now);
      NoClash(rows, before, now, front, last);
      InsertRecords(before, now, last);
      OffersMore(front, last);
    }
  }

  lemma OffersMore(front: seq<Recommendation>, last: Recommendation)
    requires last.entryTime.Some?
    ensures forall entry :: Offers(front + [last], entry) <==> Offers(front, entry) || entry == EntryOf(last)
  {
    forall entry
      ensures Offers(front + [last], entry) <==> Offers(front, entry) || entry == EntryOf(last)
    {
      assert last in front + [last];
    }
  }

  // ---- the invariant -----------------------------------------------------------------------

  /** Lists handed to a save step are current at that run's own clock reading. */
  ghost predicate Timely(s: State, step: Step)
    requires Enabled(s, step)
  {
    step.Save? ==> Current(step.recs, s.PhaseOf(step.p).now)
  }

  ghost predicate TimelyRun(s: State, steps: seq<Step>)
    requires Schedulable(s, steps)
    decreases steps
  {
    steps != [] ==> Timely(s, steps[0]) && TimelyRun(Apply(s, steps[0]), steps[1..])
  }

  /** What a pipeline in this phase knows about announcements. */
  ghost predicate PhaseKnows(rows: Table, told: seq<EntryKey>, phase: Phase) {
    && (phase.Selected? ==> phase.announced == Announced(rows, phase.now - ANNOUNCE_MEMORY))
    && (phase.Stored? ==>
          && NoRepeats(EntriesOf(phase.news))
          && forall entry <- EntriesOf(phase.news) :: Recorded(rows, entry) && entry !in told)
  }

  ghost predicate ToldInv(s: State) {
    && NoRepeats(s.told)
    && (forall entry <- s.told :: Recorded(s.rows, entry))
    && (forall p <- s.pipes :: PhaseKnows(s.rows, s.told, s.pipes[p]))
  }

  /** The entries of two tables with the same keys and entry times are the same. */
  lemma SameEntries(before: Table, after: Table)
    requires before.Keys == after.Keys
    requires forall key <- before :: after[key].entryTime == before[key].entryTime
    ensures forall entry :: Recorded(before, entry) <==> Recorded(after, entry)
    ensures forall since :: Announced(before, since) == Announced(after, since)
  {
    forall entry
      ensures Recorded(before, entry) <==> Recorded(after, entry)
    {
      assert forall key :: Stands(before, key, entry) <==> Stands(after, key, entry);
    }
    forall since
      ensures Announced(before, since) == Announced(after, since)
    {
      forall entry
        ensures entry in Announced(before, since) <==> entry in Announced(after, since)
      {
        AnnouncedIs(before, since, entry);
        AnnouncedIs(after, since, entry);
      }
    }
  }

  /** What the saving step finds and leaves: every announcement-to-be is new, distinct and stored. */
  lemma SavedEntries(rows: Table, now: Time, recs: seq<Recommendation>)
    requires Current(recs, now) && forall key <- rows :: key.runTime != now
    ensures var news := DropAnnounced(recs, Announced(rows, now - ANNOUNCE_MEMORY));
            && NoRepeats(EntriesOf(news))
            && (forall entry <- EntriesOf(news) :: !Recorded(rows, entry))
            && (forall entry ::
                  Recorded(InsertAll(rows, now, news), entry) <==> Recorded(rows, entry) || entry in EntriesOf(news))
  {
    hide Recorded, Announced, InsertAll, NoRepeats, DropAnnounced;
    var announced := Announced(rows, now - ANNOUNCE_MEMORY);
    var news := DropAnnounced(recs, announced);
    DropKeeps(recs, announced);
    DropKeepsDistinct(recs, announced, now);
    EntriesDistinct(news, now);
    forall rec <- news
      ensures !Recorded(rows, EntryOf(rec))
    {
      AnnouncedIs(rows, now - ANNOUNCE_MEMORY, EntryOf(rec));
    }
    AllStored(rows, now, news);
    forall entry
      ensures entry in EntriesOf(news) <==> Offers(news, entry)
    {
      EntriesAre(news, entry);
    }
  }

  lemma SaveKeepsTold(s: State, p: nat, recs: seq<Recommendation>)
    requires Inv(s) && ToldInv(s) && Enabled(s, Save(p, recs)) && Timely(s, Save(p, recs))
    ensures ToldInv(Apply(s, Save(p, recs)))
  {
    hide Recorded, Announced, InsertAll, NoRepeats, EntriesOf, DropAnnounced, Current, Unique, RowSound;
    hide WatchCurrent, AlertsOnce, PendingCurrent;
    var now := s.PhaseOf(p).now;
    if now !in s.runs {
      assert PhaseKnows(s.rows, s.told, s.pipes[p]);
      SavedEntries(s.rows, now, recs);
    }
  }

  lemma NotifyKeepsTold(s: State, p: nat, delivered: bool)
    requires Inv(s) && ToldInv(s) && Enabled(s, Notify(p, delivered))
    ensures ToldInv(Apply(s, Notify(p, delivered)))
  {
    hide TableSound, WatchCurrent, AlertsOnce, PendingCurrent, Recorded, EvaluationCurrent;
    var entries := EntriesOf(s.PhaseOf(p).news);
    assert PhaseKnows(s.rows, s.told, s.pipes[p]);
    var told := s.told + entries;
    assert forall i :: 0 <= i < |s.told| ==> told[i] == s.told[i] && told[i] in s.told;
    assert forall i :: |s.told| <= i < |told| ==> told[i] == entries[i - |s.told|] && told[i] in entries;
  }

  lemma StepKeepsTold(s: State, step: Step)
    requires Inv(s) && ToldInv(s) && Enabled(s, step) && Timely(s, step)
    ensures ToldInv(Apply(s, step))
  {
    hide TableSound, WatchCurrent, AlertsOnce, PendingCurrent, Announced, Recorded;
    match step {
      case Save(p, recs) => SaveKeepsTold(s, p, recs);
      case Notify(p, delivered) => NotifyKeepsTold(s, p, delivered);
      case Judge(_, _) => SameEntries(s.rows, Apply(s, step).rows);
      case Mark => SameEntries(s.rows, Apply(s, step).rows);
      case _ =>
    }
  }

  /** Over any schedule whose runs offer current lists, no entry is announced twice, and every
      announced entry has exactly one row. */
  lemma {:induction false} AnnouncedAtMostOnce(s: State, steps: seq<Step>)
    requires Inv(s) && ToldInv(s) && Schedulable(s, steps) && TimelyRun(s, steps)
    ensures var t := Run(s, steps);
            && NoRepeats(t.told)
            && forall entry <- t.told ::
                 exists key <- t.rows :: Stands(t.rows, key, entry) && forall other :: Stands(t.rows, other, entry) ==>
                   other == key
    decreases steps
  {
    hide Apply, Enabled, Timely;
    if steps == [] {
      forall entry <- s.told
        ensures exists key <- s.rows :: Stands(s.rows, key, entry) && forall other :: Stands(s.rows, other, entry) ==>
                other == key
      {
        var key :| key in s.rows && Stands(s.rows, key, entry);
      }
    } else {
      StepKeepsInv(s, steps[0]);
      StepKeepsTold(s, steps[0]);
      AnnouncedAtMostOnce(Apply(s, steps[0]), steps[1..]);
    }
  }

  lemma EmptyLedgerStartsWell()
    ensures Inv(EMPTY) && ToldInv(EMPTY)
  {
  }
}
