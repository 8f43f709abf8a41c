/** The rules of the tracks as their table states them (src/tracks.py, src/backtest.py), track by track,
    and what they make of the hold window and the deadline. */
module TrackTable {
  import opened Domain
  import opened Tracks
  import opened PriceEvents
  import opened Rows
  import opened Ledger

  /** 8, 24 and 48 hours; 24 for any other key. */
  function HoldOf(track: string): Time {
    if track == "day" then 8 * 3_600_000_000
    else if track == "mid" then 24 * 3_600_000_000
    else if track == "long" then 48 * 3_600_000_000
    else 24 * 3_600_000_000
  }

  function TargetOf(track: string): real {
    if track == "day" then 0.02 else if track == "mid" then 0.05 else if track == "long" then 0.10 else 0.03
  }

  function StopOf(track: string): real {
    if track == "day" then 0.02 else if track == "mid" then 0.04 else if track == "long" then 0.05 else 0.02
  }

  /** The look-up by key gives these numbers for every key, */
  lemma RulesAre(track: string)
    ensures RulesFor(track).target == TargetOf(track) && RulesFor(track).stop == StopOf(track)
    ensures RulesFor(track).holdHours * HOUR == HoldOf(track)
  {
  }

  /** and the three tracks' own for theirs. */
  lemma ShippedRules(spec: TrackSpec)
    requires spec in TRACKS
    ensures RulesFor(spec.key) == Rules(spec.target, spec.stop, spec.holdHours)
    ensures spec.key == "day" || spec.key == "mid" || spec.key == "long"
  {
    assert spec == DAY_TRACK || spec == MID_TRACK || spec == LONG_TRACK;
  }

  /** The monitor gives a position up exactly when more than its own hold has passed since the
      announcement. */
  lemma ExpiredIff(rec: Monitored, now: Time)
    ensures Expired(rec, now) <==> rec.runTime + HoldOf(rec.track) < now
  {
    RulesAre(rec.track);
  }

  /** A position's deadline is its own hold after the entry. */
  lemma DeadlineIs(track: string, entryTime: Time)
    ensures Deadline(track, entryTime) == entryTime + HoldOf(track)
  {
    RulesAre(track);
  }

  lemma PricesOf(rec: Monitored)
    ensures rec.Target() == rec.entryPrice * (1.0 + TargetOf(rec.track))
    ensures rec.Stop() == rec.entryPrice * (1.0 - StopOf(rec.track))
  {
    RulesAre(rec.track);
  }
}
