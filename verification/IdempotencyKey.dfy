/** The deterministic payout key: SHA-256 over the claim id and the UTC hour of the
    event. SHA-256 is taken to be injective, so the key is modelled by the text it
    hashes. The calendar follows section 21.4.1 of ECMA-262 (2023 edition). */
module IdempotencyKey {
  import opened Decimal

  // ---- The Gregorian calendar of JavaScript's Date ----

  function DayFromYear(y: int): int {
    365 * (y - 1970) + (y - 1969) / 4 - (y - 1901) / 100 + (y - 1601) / 400
  }

  predicate IsLeap(y: int) {
    y % 4 == 0 && (y % 100 != 0 || y % 400 == 0)
  }

  function DaysInYear(y: int): int {
    if IsLeap(y) then 366 else 365
  }

  lemma YearLength(y: int)
    ensures DayFromYear(y + 1) == DayFromYear(y) + DaysInYear(y)
  {
    FloorStep(y - 1969, 4);
    FloorStep(y - 1901, 100);
    FloorStep(y - 1601, 400);
    assert (y - 1969 + 1) % 4 == y % 4;
    assert (y - 1901 + 1) % 100 == y % 100;
    assert (y - 1601 + 1) % 400 == y % 400;
  }

  lemma FloorStep(n: int, d: int)
    requires d == 4 || d == 100 || d == 400
    ensures (n + 1) / d == n / d + (if (n + 1) % d == 0 then 1 else 0)
  {}

  function YearUpFrom(day: int, y: int): (r: int)
    requires DayFromYear(y) <= day
    ensures DayFromYear(r) <= day < DayFromYear(r + 1)
    decreases day - DayFromYear(y)
  {
    YearLength(y);
    if day < DayFromYear(y + 1) then y else YearUpFrom(day, y + 1)
  }

  function YearDownFrom(day: int, y: int): (r: int)
    requires day < DayFromYear(y + 1)
    ensures DayFromYear(r) <= day < DayFromYear(r + 1)
    decreases DayFromYear(y + 1) - day
  {
    YearLength(y);
    if DayFromYear(y) <= day then y else YearDownFrom(day, y - 1)
  }

  /** The year whose first day is the latest not after `day`. */
  function YearFromDay(day: int): (r: int)
    ensures DayFromYear(r) <= day < DayFromYear(r + 1)
  {
    if DayFromYear(1970) <= day then YearUpFrom(day, 1970) else YearDownFrom(day, 1969)
  }

  lemma {:induction false} YearsAreOrdered(y1: int, y2: int)
    requires y1 <= y2
    ensures DayFromYear(y1) + (y2 - y1) <= DayFromYear(y2)
    decreases y2 - y1
  {
    if y1 < y2 {
      YearsAreOrdered(y1, y2 - 1);
      YearLength(y2 - 1);
    }
  }

  lemma YearReached(day: int, y: int)
    ensures YearFromDay(day) >= y <==> day >= DayFromYear(y)
  {
    var r := YearFromDay(day);
    if r >= y {
      YearsAreOrdered(y, r);
    } else {
      YearsAreOrdered(r + 1, y);
    }
  }

  /** Days of a year before month m (0 = January, 12 = the next year). */
  function DaysBeforeMonth(m: nat, leap: bool): int
    requires m <= 12
  {
    [0, 31, 59, 90, 120, 151, 181, 212, 243, 273, 304, 334, 365][m] + (if leap && m >= 2 then 1 else 0)
  }

  /** April, June, September and November have 30 days, February 28 or 29, the others 31. */
  lemma MonthLength(m: nat, leap: bool)
    requires m <= 11
    ensures DaysBeforeMonth(m + 1, leap) - DaysBeforeMonth(m, leap)
            == if m == 1 then (if leap then 29 else 28) else if m in {3, 5, 8, 10} then 30 else 31
    ensures DaysBeforeMonth(0, leap) == 0
  {}

  function MonthWithin(dayOfYear: int, leap: bool, m: nat): (r: nat)
    requires m <= 11
    requires DaysBeforeMonth(m, leap) <= dayOfYear < DaysBeforeMonth(12, leap)
    ensures r <= 11 && DaysBeforeMonth(r, leap) <= dayOfYear < DaysBeforeMonth(r + 1, leap)
    decreases 12 - m
  {
    if dayOfYear < DaysBeforeMonth(m + 1, leap) then m else MonthWithin(dayOfYear, leap, m + 1)
  }

  datatype MonthDate = MonthDate(month: nat, date: nat)

  /** Month (1 to 12) and day of the month of a day counted from 1 January. */
  function MonthDateOf(dayOfYear: int, leap: bool): (r: MonthDate)
    requires 0 <= dayOfYear < DaysBeforeMonth(12, leap)
    ensures 1 <= r.month <= 12 && 1 <= r.date <= 31
    ensures DaysBeforeMonth(r.month - 1, leap) + r.date - 1 == dayOfYear
  {
    var m := MonthWithin(dayOfYear, leap, 0);
    MonthLength(m, leap);
    MonthDate(m + 1, dayOfYear - DaysBeforeMonth(m, leap) + 1)
  }

  function DayOfYear(day: int): (r: int)
    ensures 0 <= r < DaysBeforeMonth(12, IsLeap(YearFromDay(day)))
    ensures DayFromYear(YearFromDay(day)) + r == day
  {
    YearLength(YearFromDay(day));
    day - DayFromYear(YearFromDay(day))
  }

  datatype CivilHour = CivilHour(year: int, month: nat, date: nat, hour: nat)

  const SECONDS_PER_HOUR := 3600
  const HOURS_PER_DAY := 24

  /** The UTC hour since the epoch that an event falls in. */
  function HourIndex(eventTimestamp: int): int {
    eventTimestamp / SECONDS_PER_HOUR
  }

  /** getUTCFullYear, getUTCMonth + 1, getUTCDate and getUTCHours. */
  function CivilOfHour(hourIndex: int): (c: CivilHour)
    ensures 1 <= c.month <= 12 && 1 <= c.date <= 31 && c.hour < 24
  {
    var day := hourIndex / HOURS_PER_DAY;
    var year := YearFromDay(day);
    var md := MonthDateOf(DayOfYear(day), IsLeap(year));
    CivilHour(year, md.month, md.date, hourIndex % HOURS_PER_DAY)
  }

  function DayOfCivil(c: CivilHour): int
    requires 1 <= c.month <= 12
  {
    DayFromYear(c.year) + DaysBeforeMonth(c.month - 1, IsLeap(c.year)) + c.date - 1
  }

  /** The year/month/day/hour decomposition loses nothing. */
  lemma {:induction false} CivilRoundTrip(hourIndex: int)
    ensures DayOfCivil(CivilOfHour(hourIndex)) == hourIndex / HOURS_PER_DAY
    ensures HOURS_PER_DAY * DayOfCivil(CivilOfHour(hourIndex)) + CivilOfHour(hourIndex).hour == hourIndex
  {
    var day := hourIndex / HOURS_PER_DAY;
    var c := CivilOfHour(hourIndex);
    assert c.year == YearFromDay(day);
    assert DaysBeforeMonth(c.month - 1, IsLeap(c.year)) + c.date - 1 == DayOfYear(day);
  }

  // ---- The key text ----

  function WindowText(c: CivilHour): string
    requires c.year >= 0
  {
    NatToString(c.year) + PadStart(NatToString(c.month), 2) + PadStart(NatToString(c.date), 2)
    + "_" + PadStart(NatToString(c.hour), 2)
  }

  function Window(eventTimestamp: int): string
    requires FourDigitYear(eventTimestamp)
  {
    WindowText(CivilOfHour(HourIndex(eventTimestamp)))
  }

  function ClaimId(policyId: string, disruptionEventId: string): string {
    policyId + "_" + disruptionEventId
  }

  function BuildKey(claimId: string, eventTimestamp: int): string
    requires FourDigitYear(eventTimestamp)
  {
    claimId + "_" + Window(eventTimestamp)
  }

  predicate FourDigitYear(eventTimestamp: int) {
    1000 <= CivilOfHour(HourIndex(eventTimestamp)).year <= 9999
  }

  /** The years 1000 to 9999 are exactly these epoch seconds. */
  lemma {:induction false} FourDigitYearRange(eventTimestamp: int)
    ensures FourDigitYear(eventTimestamp) <==> -30_610_224_000 <= eventTimestamp < 253_402_300_800
  {
    var day := HourIndex(eventTimestamp) / HOURS_PER_DAY;
    YearReached(day, 1000);
    YearReached(day, 10000);
    YearStarts();
  }

  lemma FourDigits(year: nat)
    requires 1000 <= year <= 9999
    ensures |NatToString(year)| == 4
  {
    NatWidth(year, 4);
    NatWidth(year, 3);
    assert Pow10(3) == 1000 && Pow10(4) == 10000;
  }

  lemma TwoDigits(n: nat)
    requires n <= 31
    ensures |PadStart(NatToString(n), 2)| == 2 && AllDigits(PadStart(NatToString(n), 2))
    ensures ParseNat(PadStart(NatToString(n), 2)) == n
  {
    PaddedField(n, 2);
    assert Pow10(2) == 100;
  }

  lemma FixedFields(y: string, m: string, d: string, h: string)
    requires |y| == 4 && |m| == 2 && |d| == 2 && |h| == 2
    ensures var w := y + m + d + "_" + h;
            |w| == 11 && w[..4] == y && w[4..6] == m && w[6..8] == d && w[9..11] == h
  {}

  /** With a four-digit year the window text determines every calendar field. */
  lemma WindowTextReadsBack(c1: CivilHour, c2: CivilHour)
    requires 1000 <= c1.year <= 9999 && c1.month <= 12 && c1.date <= 31 && c1.hour < 24
    requires 1000 <= c2.year <= 9999 && c2.month <= 12 && c2.date <= 31 && c2.hour < 24
    ensures |WindowText(c1)| == 11
    ensures WindowText(c1) == WindowText(c2) ==> c1 == c2
  {
    forall c <- [c1, c2]
      ensures |WindowText(c)| == 11 && WindowText(c)[..4] == NatToString(c.year)
      ensures WindowText(c)[4..6] == PadStart(NatToString(c.month), 2)
      ensures WindowText(c)[6..8] == PadStart(NatToString(c.date), 2)
      ensures WindowText(c)[9..11] == PadStart(NatToString(c.hour), 2)
      ensures ParseNat(NatToString(c.year)) == c.year
      ensures AllDigits(PadStart(NatToString(c.month), 2)) && ParseNat(PadStart(NatToString(c.month), 2)) == c.month
      ensures AllDigits(PadStart(NatToString(c.date), 2)) && ParseNat(PadStart(NatToString(c.date), 2)) == c.date
      ensures AllDigits(PadStart(NatToString(c.hour), 2)) && ParseNat(PadStart(NatToString(c.hour), 2)) == c.hour
    {
      FourDigits(c.year);
      NatRoundTrip(c.year);
      TwoDigits(c.month);
      TwoDigits(c.date);
      TwoDigits(c.hour);
      FixedFields(NatToString(c.year), PadStart(NatToString(c.month), 2),
                  PadStart(NatToString(c.date), 2), PadStart(NatToString(c.hour), 2));
    }
    assert c1 in [c1, c2] && c2 in [c1, c2];
  }

  lemma {:induction false} SameWindowSameHour(t1: int, t2: int)
    requires FourDigitYear(t1) && FourDigitYear(t2)
    ensures |Window(t1)| == |Window(t2)| == 11
    ensures Window(t1) == Window(t2) <==> HourIndex(t1) == HourIndex(t2)
  {
    var h1, h2 := HourIndex(t1), HourIndex(t2);
    WindowTextReadsBack(CivilOfHour(h1), CivilOfHour(h2));
    WindowTextReadsBack(CivilOfHour(h2), CivilOfHour(h1));
    CivilRoundTrip(h1);
    CivilRoundTrip(h2);
  }

  lemma LeapDay()
    ensures YearFromDay(19782) == 2024 && DayOfYear(19782) == 59
  {
    YearStarts();
    YearIs(19782, 2024);
  }

  lemma YearIs(day: int, y: int)
    requires DayFromYear(y) <= day < DayFromYear(y + 1)
    ensures YearFromDay(day) == y
  {
    YearReached(day, y);
    YearReached(day, y + 1);
  }

  lemma YearStarts()
    ensures DayFromYear(1000) == -354_285 && DayFromYear(10000) == 2_932_897
    ensures DayFromYear(2024) == 19_723 && DayFromYear(2025) == 20_089
  {}

  lemma LeapDate()
    ensures MonthDateOf(59, true) == MonthDate(2, 29)
  {}

  lemma LeapDayTexts()
    ensures NatToString(2024) == "2024" && PadStart(NatToString(2), 2) == "02"
    ensures PadStart(NatToString(29), 2) == "29" && PadStart(NatToString(23), 2) == "23"
  {
    assert NatToString(2024) == NatToString(202) + "4" && NatToString(202) == NatToString(20) + "2";
    assert NatToString(20) == NatToString(2) + "0" && NatToString(2) == "2";
    assert PadStart("2", 2) == "0" + "2";
  }

  /** The text that is hashed: claim id, year, month and day, an underscore and the hour, all in
      UTC. The last second of 29 February 2024 falls in hour 23 of that day. */
  lemma LeapDayKey()
    ensures FourDigitYear(1709251199)
    ensures BuildKey(ClaimId("policy", "event"), 1709251199) == "policy_event_20240229_23"
  {
    LeapDay();
    LeapDate();
    LeapDayTexts();
    assert HourIndex(1709251199) == 474791;
    assert 474791 / HOURS_PER_DAY == 19782;
    assert CivilOfHour(474791) == CivilHour(2024, 2, 29, 23);
  }

  /** UUIDs all have this length. */
  const UUID_LENGTH := 36

  lemma SplitAtSameLength(a1: string, b1: string, a2: string, b2: string)
    requires a1 + b1 == a2 + b2
    requires |a1| == |a2| || |b1| == |b2|
    ensures a1 == a2 && b1 == b2
  {
    assert |a1| + |b1| == |a1 + b1| == |a2 + b2| == |a2| + |b2|;
    assert (a1 + b1)[..|a1|] == a1 && (a2 + b2)[..|a2|] == a2;
    assert (a1 + b1)[|a1|..] == b1 && (a2 + b2)[|a2|..] == b2;
  }

  /** Two payouts share a key exactly when policy, disruption and UTC hour agree. */
  lemma {:induction false} KeyIdentifiesClaimHour(p1: string, d1: string, t1: int, p2: string, d2: string, t2: int)
    requires |p1| == |p2| == UUID_LENGTH
    requires FourDigitYear(t1) && FourDigitYear(t2)
    ensures BuildKey(ClaimId(p1, d1), t1) == BuildKey(ClaimId(p2, d2), t2)
            <==> p1 == p2 && d1 == d2 && HourIndex(t1) == HourIndex(t2)
  {
    if BuildKey(ClaimId(p1, d1), t1) == BuildKey(ClaimId(p2, d2), t2) {
      SameWindowSameHour(t1, t2);
      SplitAtSameLength(ClaimId(p1, d1) + "_", Window(t1), ClaimId(p2, d2) + "_", Window(t2));
      SplitAtSameLength(ClaimId(p1, d1), "_", ClaimId(p2, d2), "_");
      SplitAtSameLength(p1 + "_", d1, p2 + "_", d2);
      SplitAtSameLength(p1, "_", p2, "_");
    }
  }

  /** The fixed id length matters: free-form ids holding an underscore can collide. */
  lemma FreeFormIdsCollide(t: int)
    requires FourDigitYear(t)
    ensures BuildKey(ClaimId("a_b", "c"), t) == BuildKey(ClaimId("a", "b_c"), t)
  {
    assert ClaimId("a_b", "c") == ClaimId("a", "b_c");
  }
}
