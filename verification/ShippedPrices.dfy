/** The prices a message shows: the targets and stops of the shipped tracks, printed
    (src/notifier.py, `_entry_guide_lines` and `_price`). */
module ShippedPrices {
  import opened Domain
  import opened PriceEvents
  import opened PriceText

  /** The target and stop prices of every track, for an entry of at most seven significant digits. */
  lemma ShippedPricesAreCut(rec: Monitored, digits: nat, j: int)
    requires 0 < digits < 10_000_000 && rec.entryPrice == Scaled(digits as real, -j)
    ensures rec.Target() > 0.0 && Shown(rec.Target()) == (rec.Target() * 100_000_000.0).Floor
    ensures rec.Stop() > 0.0 && Shown(rec.Stop()) == (rec.Stop() * 100_000_000.0).Floor
  {
    hide Scaled, Exponent, Shown;
    var rules := RulesFor(rec.track);
    var up, down := RulePercent(rec.track);
    PercentageIsCut(digits, j, up);
    PercentageIsCut(digits, j, down);
  }

  lemma RulePercent(track: string) returns (up: nat, down: nat)
    ensures 0 < up < 1000 && 0 < down < 1000
    ensures 1.0 + RulesFor(track).target == up as real / 100.0
    ensures 1.0 - RulesFor(track).stop == down as real / 100.0
  {
    var rules := RulesFor(track);
    up := if rules.target == 0.02 then 102
      else if rules.target == 0.05 then 105
      else if rules.target == 0.10 then 110
      else 103;
    down := if rules.stop == 0.02 then 98 else if rules.stop == 0.04 then 96 else 95;
  }

  /** One digit more and it can happen: the day track's target for the entry 99999.998 is shown above
      its value. The product 6.56 * 1.02 with its floating error is shown as 6.6912. */
  lemma ShownExamples()
    ensures var target := 99999.998 * (1.0 + RulesFor("day").target);
            Shown(target) == 10_199_999_800_000 && 10_199_999_800_000.0 > target * 100_000_000.0
    ensures Shown(6.6911999999999995) == 669_120_000
  {
    hide Scaled, Exponent;
    assert 99999.998 * (1.0 + RulesFor("day").target) == 101999.99796;
    ScaledFour(101999.99796);
    ExponentIs(101999.99796, -4);
    assert Pow10(4) == 10_000;
    ScaledFour(6.6911999999999995);
    ExponentIs(6.6911999999999995, -9);
    assert Pow10(1) == 10;
  }
}
