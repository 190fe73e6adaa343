/** The weekly premium: the core equation, rounded to paise, then kept between the floor and
    the cap of the coverage tier. Numbers are exact reals. */
module PremiumBounds {
  import opened JsMath
  import opened Reals

  const RATE := 0.015
  const MARGIN := 0.1
  const MAXIMUM := 50.0
  const BASIC_CAP := 30.0
  const STANDARD_CAP := 40.0
  const PREMIUM_CAP := 50.0

  /** Coverage in whole tenths. */
  function Tenths(ct: real): int {
    Round(ct * 10.0)
  }

  function TierFloor(ct: real): real {
    var rounded := Tenths(ct) as real / 10.0;
    if rounded <= 0.45 then 20.0
    else if rounded <= 0.65 then 25.0
    else if rounded <= 0.75 then 30.0
    else if rounded <= 0.85 then 40.0
    else 40.0 + (rounded - 0.8) / 0.1 * (50.0 - 40.0)
  }

  function TierCap(ct: real): real {
    var rounded := Tenths(ct) as real / 10.0;
    if rounded == 0.4 then BASIC_CAP
    else if rounded == 0.6 then STANDARD_CAP
    else if rounded == 0.8 then PREMIUM_CAP
    else
      var interpolated := BASIC_CAP + (rounded - 0.4) / 0.4 * (PREMIUM_CAP - BASIC_CAP);
      Min(MAXIMUM, Max(BASIC_CAP, Round(interpolated * 100.0) as real / 100.0))
  }

  function CoreEquation(ew: real, lf: real, ct: real): real {
    ew * RATE * lf * ct * (1.0 + MARGIN)
  }

  function RawPremium(ew: real, lf: real, ct: real): real {
    Round(CoreEquation(ew, lf, ct) * 100.0) as real / 100.0
  }

  function ApplyBounds(raw: real, tierCap: real, tierFloor: real): real {
    if raw < tierFloor then tierFloor else if raw > tierCap then tierCap else raw
  }

  function WeeklyPremium(ew: real, lf: real, ct: real): real {
    ApplyBounds(RawPremium(ew, lf, ct), TierCap(ct), TierFloor(ct))
  }

  // ---- Tiers ----

  /** Floor and cap as tables over whole tenths of coverage. */
  lemma Tiers(ct: real)
    ensures Tenths(ct) as real - 0.5 <= 10.0 * ct < Tenths(ct) as real + 0.5
    ensures var t := Tenths(ct);
            TierFloor(ct) == if t <= 4 then 20.0 else if t <= 6 then 25.0 else if t == 7 then 30.0
                             else 100.0 * (t as real) / 10.0 - 40.0
    ensures var t := Tenths(ct);
            TierCap(ct) == if t <= 4 then 30.0 else if t >= 8 then 50.0 else 5.0 * t as real + 10.0
  {
    var t := Tenths(ct);
    var interpolated := BASIC_CAP + (t as real / 10.0 - 0.4) / 0.4 * (PREMIUM_CAP - BASIC_CAP);
    assert interpolated * 100.0 == (500 * t + 1000) as real;
  }

  /** The floor stays below the cap exactly when coverage is under 0.95; from there on the
      floor is at least 60 while the cap is 50. */
  lemma FloorBelowCapIff(ct: real)
    ensures TierFloor(ct) <= TierCap(ct) <==> ct < 0.95
    ensures 20.0 <= TierFloor(ct) && 30.0 <= TierCap(ct) <= 50.0
  {
    Tiers(ct);
  }

  lemma TiersAreMonotone(ct: real, ct': real)
    requires ct <= ct'
    ensures TierFloor(ct) <= TierFloor(ct') && TierCap(ct) <= TierCap(ct')
  {
    RoundIsMonotone(ct * 10.0, ct' * 10.0);
    Tiers(ct);
    Tiers(ct');
  }

  // ---- The composed premium ----

  lemma CoreIsMonotone(ew: real, ew': real, lf: real, lf': real, ct: real, ct': real)
    requires 0.0 <= ew <= ew' && 0.0 <= lf <= lf' && ct <= ct'
    requires ct' >= 0.0
    ensures CoreEquation(ew, lf, ct) <= CoreEquation(ew', lf', ct')
  {
    var e, e' := ew * RATE, ew' * RATE;
    ProductIsMonotone(lf, lf', e);
    ProductIsMonotone(e, e', lf');
    var loss, loss' := e * lf, e' * lf';
    assert 0.0 <= loss <= loss';
    ProductIsMonotone(ct, ct', loss);
    ProductIsMonotone(loss, loss', ct');
    var share, share' := loss * ct, loss' * ct';
    assert share <= share';
    assert CoreEquation(ew, lf, ct) == share * 1.1;
    assert CoreEquation(ew', lf', ct') == share' * 1.1;
  }

  lemma NegativeCoverageIsFloored(ew: real, lf: real, ct: real)
    requires 0.0 <= ew && 0.0 <= lf && ct < 0.0
    ensures WeeklyPremium(ew, lf, ct) == TierFloor(ct)
  {
    FloorBelowCapIff(ct);
    ProductIsMonotone(ct, 0.0, ew * RATE * lf);
    assert CoreEquation(ew, lf, ct) == ew * RATE * lf * ct * 1.1;
    RoundIsMonotone(CoreEquation(ew, lf, ct) * 100.0, 0.0);
  }

  /** Every premium lies between its tier's floor and cap, and so between 20 and 50, for all
      earnings and loss factors exactly when coverage is under 0.95. */
  lemma {:induction false} BoundedIff(ct: real)
    ensures (forall ew: real, lf: real | 0.0 <= ew && 0.0 <= lf ::
               20.0 <= TierFloor(ct) <= WeeklyPremium(ew, lf, ct) <= TierCap(ct) <= 50.0)
            <==> ct < 0.95
  {
    FloorBelowCapIff(ct);
    if ct >= 0.95 {
      assert WeeklyPremium(0.0, 0.0, ct) > TierCap(ct);
    }
  }

  /** Rounding and clamping keep the premium nondecreasing in earnings, loss factor and
      coverage together. */
  lemma PremiumIsMonotone(ew: real, ew': real, lf: real, lf': real, ct: real, ct': real)
    requires 0.0 <= ew <= ew' && 0.0 <= lf <= lf' && ct <= ct' < 0.95
    ensures WeeklyPremium(ew, lf, ct) <= WeeklyPremium(ew', lf', ct')
  {
    FloorBelowCapIff(ct);
    FloorBelowCapIff(ct');
    TiersAreMonotone(ct, ct');
    if ct' >= 0.0 {
      CoreIsMonotone(ew, ew', lf, lf', ct, ct');
      RoundIsMonotone(CoreEquation(ew, lf, ct) * 100.0, CoreEquation(ew', lf', ct') * 100.0);
    } else {
      NegativeCoverageIsFloored(ew, lf, ct);
      NegativeCoverageIsFloored(ew', lf', ct');
    }
  }

  /** Earnings large enough to lift the raw premium above the floor. */
  lemma RawReaches(floor: real, ct: real) returns (ew: real)
    requires ct > 0.0 && floor >= 20.0
    ensures ew >= 0.0 && RawPremium(ew, 1.0, ct) >= floor
  {
    ew := floor * 100.0 / ct;
    assert ew * ct == floor * 100.0;
    assert CoreEquation(ew, 1.0, ct) * 100.0 == (ew * ct) * 1.65;
    assert floor * 165.0 >= floor * 100.0 + 0.5;
  }

  /** More earnings never lower the premium exactly when coverage is under 0.95. From there
      on a low earner is lifted to the floor of 60 or more and a high earner is cut to 50. */
  lemma {:induction false} MonotoneInEarningsIff(ct: real)
    ensures (forall ew: real, ew': real, lf: real | 0.0 <= ew <= ew' && 0.0 <= lf ::
               WeeklyPremium(ew, lf, ct) <= WeeklyPremium(ew', lf, ct))
            <==> ct < 0.95
  {
    FloorBelowCapIff(ct);
    if ct < 0.95 {
      forall ew: real, ew': real, lf: real | 0.0 <= ew <= ew' && 0.0 <= lf
        ensures WeeklyPremium(ew, lf, ct) <= WeeklyPremium(ew', lf, ct)
      {
        PremiumIsMonotone(ew, ew', lf, lf, ct, ct);
      }
    } else {
      var high := RawReaches(TierFloor(ct), ct);
      assert WeeklyPremium(0.0, 1.0, ct) == TierFloor(ct);
      assert WeeklyPremium(high, 1.0, ct) == TierCap(ct);
    }
  }

  /** The premium is the equation's own value exactly when that lies between the tier's floor
      and cap; never, once the floor has passed the cap. */
  lemma EquationKeptIff(ew: real, lf: real, ct: real)
    ensures WeeklyPremium(ew, lf, ct) == RawPremium(ew, lf, ct)
            <==> TierFloor(ct) <= RawPremium(ew, lf, ct) <= TierCap(ct)
    ensures ct >= 0.95 ==> WeeklyPremium(ew, lf, ct) != RawPremium(ew, lf, ct)
  {
    FloorBelowCapIff(ct);
  }

  /** Earnings times 1.5%, loss factor and coverage, with a margin of a tenth, to the nearest paisa. */
  lemma RawPremiumIs(ew: real, lf: real, ct: real)
    ensures var paise := 100.0 * RawPremium(ew, lf, ct);
            paise == paise.Floor as real && paise - 0.5 <= 1.65 * (ew * lf * ct) < paise + 0.5
  {
    var e := ew * RATE;
    assert e * lf == (ew * lf) * RATE;
    assert e * lf * ct == ((ew * lf) * RATE) * ct == (ew * lf * ct) * RATE;
    assert CoreEquation(ew, lf, ct) * 100.0 == (ew * lf * ct) * 1.65;
    assert 100.0 * RawPremium(ew, lf, ct) == Round(CoreEquation(ew, lf, ct) * 100.0) as real;
  }

  function Distance(a: real, b: real): real {
    if a <= b then b - a else a - b
  }

  /** Below coverage 0.95 the premium is the admissible value closest to the equation's. */
  lemma PremiumIsNearest(ew: real, lf: real, ct: real, x: real)
    requires ct < 0.95 && TierFloor(ct) <= x <= TierCap(ct)
    ensures Distance(WeeklyPremium(ew, lf, ct), RawPremium(ew, lf, ct)) <= Distance(x, RawPremium(ew, lf, ct))
  {
    FloorBelowCapIff(ct);
  }

  /** Earnings of 10000 at loss factor 0.5 in the standard tier: the equation gives 49.50, the
      tier's cap 40. */
  lemma StandardTierIsCapped()
    ensures RawPremium(10000.0, 0.5, 0.6) == 49.5
    ensures ApplyBounds(RawPremium(10000.0, 0.5, 0.6), TierCap(0.6), 20.0) == 40.0
  {
    assert CoreEquation(10000.0, 0.5, 0.6) * 100.0 == 4950.0;
    assert Round(4950.0) == 4950;
    assert Tenths(0.6) == 6;
  }
}
