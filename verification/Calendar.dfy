/**
  The certificate calendar (bnp_enrol.rs): `civil_from_days` is the proleptic
  Gregorian calendar, shown day by day against the leap-year rule of Appendix C
  of RFC 3339.
 */
module Calendar {
  datatype Date = Date(year: int, month: int, day: int)

  const I32_MIN: int := -0x8000_0000
  const I32_MAX: int := 0x7FFF_FFFF

  /** Month and day of the `n`th day of a year that begins on 1 March. */
  function MonthDay(n: int): (int, int) {
    var mp := (5 * n + 2) / 153;
    var day := n - (153 * mp + 2) / 5 + 1;
    (if mp < 10 then mp + 3 else mp - 9, day)
  }

  /** The date of a day within a 400-year era. */
  function EraDate(era: int, dayOfEra: int): Date {
    var yearOfEra := (dayOfEra - dayOfEra / 1_460 + dayOfEra / 36_524 - dayOfEra / 146_096) / 365;
    var dayOfYear := dayOfEra - (365 * yearOfEra + yearOfEra / 4 - yearOfEra / 100);
    var (month, day) := MonthDay(dayOfYear);
    Date(yearOfEra + era * 400 + (if month <= 2 then 1 else 0), month, day)
  }

  /** The computation in 64-bit arithmetic, before the year is narrowed. */
  function Civil(days: int): Date {
    var z := days + 719_468;
    EraDate(z / 146_097, z % 146_097)
  }

  function CivilFromDays(days: int): Date {
    var d := Civil(days);
    Date(
      if I32_MIN <= d.year <= I32_MAX then d.year else I32_MAX,
      if 0 <= d.month <= 255 then d.month else 1,
      if 0 <= d.day <= 255 then d.day else 1)
  }

  // ----- The calendar ------------------------------------------------------

  predicate Leap(year: int) {
    year % 4 == 0 && (year % 100 != 0 || year % 400 == 0)
  }

  function DaysIn(year: int, month: int): int {
    if month == 2 then (if Leap(year) then 29 else 28)
    else if month == 4 || month == 6 || month == 9 || month == 11 then 30
    else 31
  }

  predicate ValidDate(d: Date) {
    1 <= d.month <= 12 && 1 <= d.day <= DaysIn(d.year, d.month)
  }

  function NextDay(d: Date): Date {
    if d.day < DaysIn(d.year, d.month) then Date(d.year, d.month, d.day + 1)
    else if d.month < 12 then Date(d.year, d.month + 1, 1)
    else Date(d.year + 1, 1, 1)
  }

  function PreviousDay(d: Date): Date {
    if d.day > 1 then Date(d.year, d.month, d.day - 1)
    else if d.month > 1 then Date(d.year, d.month - 1, DaysIn(d.year, d.month - 1))
    else Date(d.year - 1, 12, 31)
  }

  /** The calendar counted day by day from 1 January 1970. */
  function Gregorian(days: int): Date
    decreases if days < 0 then -days else days
  {
    if days == 0 then Date(1970, 1, 1)
    else if days > 0 then NextDay(Gregorian(days - 1))
    else PreviousDay(Gregorian(days + 1))
  }

  lemma PreviousThenNext(d: Date)
    requires ValidDate(d)
    ensures ValidDate(PreviousDay(d)) && NextDay(PreviousDay(d)) == d && ValidDate(NextDay(d))
  {
  }

  lemma {:induction false} GregorianSteps(days: int)
    ensures ValidDate(Gregorian(days)) && Gregorian(days + 1) == NextDay(Gregorian(days))
    decreases if days < 0 then -days else days
  {
    if days > 0 {
      GregorianSteps(days - 1);
      PreviousThenNext(Gregorian(days - 1));
    } else if days < 0 {
      GregorianSteps(days + 1);
      PreviousThenNext(Gregorian(days + 1));
    }
  }

  predicate Earlier(a: Date, b: Date) {
    || a.year < b.year
    || (a.year == b.year && (a.month < b.month || (a.month == b.month && a.day < b.day)))
  }

  /** Dates increase strictly with days, so no two days share one. */
  lemma {:induction false} GregorianIncreases(a: int, b: int)
    requires a < b
    ensures Earlier(Gregorian(a), Gregorian(b))
    decreases b - a
  {
    GregorianSteps(b - 1);
    if a < b - 1 {
      GregorianIncreases(a, b - 1);
    }
  }

  // ----- The computation in parts ------------------------------------------

  /**
    A day by 400-year era, century, 4-year cycle, year and day, each from zero,
    in years that begin on 1 March.
   */
  datatype Parts = Parts(era: int, century: int, cycle: int, year: int, day: int)

  predicate LeapEnd(p: Parts) {
    p.year == 3 && (p.cycle != 24 || p.century == 3)
  }

  function LastDay(p: Parts): int {
    if LeapEnd(p) then 365 else 364
  }

  predicate Proper(p: Parts) {
    0 <= p.century <= 3 && 0 <= p.cycle <= 24 && 0 <= p.year <= 3 && 0 <= p.day <= LastDay(p)
  }

  function DayOfEra(p: Parts): int {
    36_524 * p.century + 1_461 * p.cycle + 365 * p.year + p.day
  }

  function DaysOf(p: Parts): int {
    146_097 * p.era + DayOfEra(p) - 719_468
  }

  function YearOf(p: Parts): int {
    100 * p.century + 4 * p.cycle + p.year
  }

  lemma PartsOf(days: int) returns (p: Parts)
    ensures Proper(p) && DaysOf(p) == days
  {
    var z := days + 719_468;
    var era, e := z / 146_097, z % 146_097;
    var century := if e / 36_524 == 4 then 3 else e / 36_524;
    var c := e - 36_524 * century;
    var cycle := c / 1_461;
    var y := c - 1_461 * cycle;
    var year := if y / 365 == 4 then 3 else y / 365;
    p := Parts(era, century, cycle, year, y - 365 * year);
  }

  lemma PartsUnique(p: Parts, q: Parts)
    requires Proper(p) && Proper(q) && DaysOf(p) == DaysOf(q)
    ensures p == q
  {
    assert 0 <= DayOfEra(p) < 146_097 && 0 <= DayOfEra(q) < 146_097;
    assert p.era == q.era;
    assert p.century == q.century;
    assert p.cycle == q.cycle;
  }

  lemma YearOfEra(p: Parts)
    requires Proper(p)
    ensures var e := DayOfEra(p);
      && 0 <= e < 146_097
      && (e - e / 1_460 + e / 36_524 - e / 146_096) / 365 == YearOf(p)
  {
    var e := DayOfEra(p);
    var carry := 24 * p.century + p.cycle + 365 * p.year + p.day;
    assert e == 1_460 * (25 * p.century + p.cycle) + carry && 0 <= carry < 2_920;
    var short := if carry >= 1_460 then 1 else 0;
    assert e / 1_460 == 25 * p.century + p.cycle + short;
    if e != 146_096 {
      assert e / 146_096 == 0 && e / 36_524 == p.century;
    }
  }

  function DateOf(p: Parts): Date {
    var (month, day) := MonthDay(p.day);
    Date(YearOf(p) + 400 * p.era + (if month <= 2 then 1 else 0), month, day)
  }

  lemma SplitEra(era: int, e: int)
    requires 0 <= e < 146_097
    ensures (146_097 * era + e) / 146_097 == era && (146_097 * era + e) % 146_097 == e
  {
  }

  lemma StartOfYear(p: Parts)
    requires Proper(p)
    ensures DayOfEra(p) - (365 * YearOf(p) + YearOf(p) / 4 - YearOf(p) / 100) == p.day
  {
    assert YearOf(p) / 4 == 25 * p.century + p.cycle;
    assert YearOf(p) / 100 == p.century;
  }

  lemma EraInParts(p: Parts)
    requires Proper(p)
    ensures EraDate(p.era, DayOfEra(p)) == DateOf(p)
  {
    YearOfEra(p);
    StartOfYear(p);
  }

  lemma CivilInParts(p: Parts)
    requires Proper(p)
    ensures Civil(DaysOf(p)) == DateOf(p)
  {
    YearOfEra(p);
    SplitEra(p.era, DayOfEra(p));
    EraInParts(p);
  }

  /** The year's days fall into its months in order. */
  lemma MonthDayStep(n: int)
    requires 0 <= n <= 365
    ensures var (month, day) := MonthDay(n);
      var (month', day') := MonthDay(n + 1);
      && 1 <= month <= 12 && 1 <= day
      && (month == 2 <==> n >= 337) && (month == 2 ==> day == n - 336)
      && (month != 2 ==> day <= DaysIn(0, month))
      && (month != 2 && day < DaysIn(0, month) ==> (month', day') == (month, day + 1))
      && (month != 2 && day == DaysIn(0, month) ==> (month', day') == (if month < 12 then month + 1 else 1, 1))
      && (n <= 364 && month == 2 ==> (month', day') == (2, day + 1))
  {
    MonthDayTable(n);
    MonthDayTable(n + 1);
  }

  /** Which month a day of the year from March falls in, and where the month starts. */
  lemma MonthDayTable(n: int)
    requires 0 <= n <= 366
    ensures MonthDay(n) ==
      if n < 31 then (3, n + 1) else if n < 61 then (4, n - 30) else if n < 92 then (5, n - 60)
      else if n < 122 then (6, n - 91) else if n < 153 then (7, n - 121) else if n < 184 then (8, n - 152)
      else if n < 214 then (9, n - 183) else if n < 245 then (10, n - 213) else if n < 275 then (11, n - 244)
      else if n < 306 then (12, n - 274) else if n < 337 then (1, n - 305) else (2, n - 336)
  {
  }

  lemma LeapOfParts(p: Parts)
    requires Proper(p)
    ensures Leap(YearOf(p) + 400 * p.era + 1) <==> LeapEnd(p)
  {
    var y := YearOf(p) + 400 * p.era + 1;
    assert y == 4 * (25 * p.century + p.cycle + 100 * p.era) + p.year + 1;
    if p.year == 3 && p.cycle == 24 {
      assert y == 400 * p.era + 100 * (p.century + 1);
    } else if p.year == 3 {
      assert y == 100 * (p.century + 4 * p.era) + 4 * (p.cycle + 1);
    }
  }

  function NextParts(p: Parts): Parts {
    if p.day < LastDay(p) then p.(day := p.day + 1)
    else if p.year < 3 then p.(year := p.year + 1, day := 0)
    else if p.cycle < 24 then p.(cycle := p.cycle + 1, year := 0, day := 0)
    else if p.century < 3 then p.(century := p.century + 1, cycle := 0, year := 0, day := 0)
    else Parts(p.era + 1, 0, 0, 0, 0)
  }

  lemma NextPartsIsNextInDays(p: Parts)
    requires Proper(p)
    ensures Proper(NextParts(p)) && DaysOf(NextParts(p)) == DaysOf(p) + 1
    ensures p.day == LastDay(p) ==> NextParts(p).day == 0
    ensures p.day == LastDay(p) ==> YearOf(NextParts(p)) + 400 * NextParts(p).era == YearOf(p) + 400 * p.era + 1
  {
  }

  lemma ValidParts(p: Parts)
    requires Proper(p)
    ensures ValidDate(DateOf(p))
    ensures var d := DateOf(p); DaysIn(d.year, d.month) == if p.day >= 337 then LastDay(p) - 336 else DaysIn(0, d.month)
  {
    MonthDayStep(p.day);
    LeapOfParts(p);
  }

  lemma NextPartsIsNextDate(p: Parts)
    requires Proper(p)
    ensures DateOf(NextParts(p)) == NextDay(DateOf(p))
  {
    MonthDayStep(p.day);
    ValidParts(p);
    if p.day == LastDay(p) {
      NextPartsIsNextInDays(p);
      assert MonthDay(0) == (3, 1);
    }
  }

  /** 1 January 1970 is day 0. */
  lemma EpochInParts()
    ensures var p := Parts(4, 3, 17, 1, 306); Proper(p) && DaysOf(p) == 0 && DateOf(p) == Date(1970, 1, 1)
  {
  }

  lemma {:induction false} DateInParts(p: Parts)
    requires Proper(p)
    ensures DateOf(p) == Gregorian(DaysOf(p))
    decreases if DaysOf(p) < 0 then -DaysOf(p) else DaysOf(p)
  {
    if DaysOf(p) == 0 {
      EpochInParts();
      PartsUnique(p, Parts(4, 3, 17, 1, 306));
    } else if DaysOf(p) > 0 {
      var q := PartsOf(DaysOf(p) - 1);
      DateInParts(q);
      NextPartsIsNextInDays(q);
      PartsUnique(p, NextParts(q));
      NextPartsIsNextDate(q);
    } else {
      NextPartsIsNextInDays(p);
      DateInParts(NextParts(p));
      NextPartsIsNextDate(p);
      ValidParts(p);
      PreviousUndoesNext(DateOf(p));
    }
  }

  lemma PreviousUndoesNext(d: Date)
    requires ValidDate(d)
    ensures PreviousDay(NextDay(d)) == d
  {
  }

  /** `Civil` is the proleptic Gregorian calendar, for every day. */
  lemma CivilIsGregorian(days: int)
    ensures Civil(days) == Gregorian(days)
  {
    var p := PartsOf(days);
    CivilInParts(p);
    DateInParts(p);
  }

  /** Narrowing changes nothing exactly while the year fits 32 bits. */
  lemma CivilFromDaysIsGregorian(days: int)
    ensures CivilFromDays(days) == Gregorian(days) <==> I32_MIN <= Gregorian(days).year <= I32_MAX
  {
    CivilIsGregorian(days);
    GregorianSteps(days);
  }
}
