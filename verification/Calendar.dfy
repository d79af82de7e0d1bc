/** Date.UTC as ECMA-262 defines it, the calendar under console/src/lib/datetime.ts. */
module Calendar {

  /** A date and time as numbers; the month counts from 1. */
  datatype Fields = Fields(year: nat, month: nat, day: nat, hour: nat, minute: nat, second: nat)

  predicate Leap(y: int) { y % 4 == 0 && (y % 100 != 0 || y % 400 == 0) }

  function YearLength(y: int): nat { if Leap(y) then 366 else 365 }

  function MonthStart(m: nat, leap: bool): nat
    requires m < 12
  {
    [0, 31, 59, 90, 120, 151, 181, 212, 243, 273, 304, 334][m] + if leap && 2 <= m then 1 else 0
  }

  function MonthLength(m: nat, leap: bool): nat
    requires m < 12
  {
    if m == 1 then (if leap then 29 else 28) else if m in {3, 5, 8, 10} then 30 else 31
  }

  function DayFromYear(y: int): int { 365 * (y - 1970) + (y - 1969) / 4 - (y - 1901) / 100 + (y - 1601) / 400 }

  /** The day number of a date; a month or day too large runs over into what follows. */
  function MakeDay(year: int, month: int, date: int): int {
    var y := year + month / 12;
    DayFromYear(y) + MonthStart(month % 12, Leap(y)) + date - 1
  }

  function MakeTime(f: Fields): int { f.hour * 3600000 + f.minute * 60000 + f.second * 1000 }

  /** Milliseconds since 1970; years 0 to 99 stand for 1900 to 1999. */
  function UTC(f: Fields): int {
    var year := if f.year <= 99 then 1900 + f.year else f.year;
    MakeDay(year, f.month - 1, f.day) * 86400000 + MakeTime(f)
  }

  /** A date and time that exists. */
  predicate Real(f: Fields) {
    && 1 <= f.month <= 12 && 1 <= f.day <= MonthLength(f.month - 1, Leap(f.year))
    && f.hour < 24 && f.minute < 60 && f.second < 60
  }

  // ---- One number, one date ----------------------------------------------------------------------

  lemma EveryFour(y: int)
    ensures (y - 1968) / 4 == (y - 1969) / 4 + if y % 4 == 0 then 1 else 0
  {
  }

  lemma EveryHundred(y: int)
    ensures (y - 1900) / 100 == (y - 1901) / 100 + if y % 100 == 0 then 1 else 0
    ensures y % 100 == 0 ==> y % 4 == 0
  {
  }

  lemma EveryFourHundred(y: int)
    ensures (y - 1600) / 400 == (y - 1601) / 400 + if y % 400 == 0 then 1 else 0
  {
  }

  lemma FourHundredsAreHundreds(y: int)
    ensures y % 400 == 0 ==> y % 100 == 0
  {
  }

  lemma YearStep(y: int)
    ensures DayFromYear(y + 1) == DayFromYear(y) + YearLength(y)
  {
    EveryFour(y);
    EveryHundred(y);
    EveryFourHundred(y);
    FourHundredsAreHundreds(y);
    var a, b, c := (y - 1969) / 4, (y - 1901) / 100, (y - 1601) / 400;
    var a', b', c' := (y - 1968) / 4, (y - 1900) / 100, (y - 1600) / 400;
    assert DayFromYear(y) == 365 * (y - 1970) + a - b + c;
    assert DayFromYear(y + 1) == 365 * (y + 1 - 1970) + a' - b' + c';
  }

  lemma {:induction false} YearsGrow(y: int, z: int)
    requires y < z
    ensures DayFromYear(y) + YearLength(y) <= DayFromYear(z)
    decreases z - y
  {
    YearStep(y);
    if y + 1 < z {
      YearsGrow(y + 1, z);
    }
  }

  lemma MonthsGrow(m: nat, n: nat, leap: bool)
    requires m < n < 12
    ensures MonthStart(m, leap) + MonthLength(m, leap) <= MonthStart(n, leap)
  {
  }

  lemma MonthsFitYear(m: nat, y: int)
    requires m < 12
    ensures MonthStart(m, Leap(y)) + MonthLength(m, Leap(y)) <= YearLength(y)
  {
  }

  predicate Earlier(f: Fields, g: Fields) {
    f.year < g.year || (f.year == g.year && (f.month < g.month || (f.month == g.month && f.day < g.day)))
  }

  function DayOf(f: Fields): int { MakeDay(f.year, f.month - 1, f.day) }

  lemma WithinYear(y: int, m: nat, d: int)
    requires m < 12
    ensures MakeDay(y, m, d) == DayFromYear(y) + MonthStart(m, Leap(y)) + d - 1
  {
    assert m / 12 == 0 && m % 12 == m;
  }

  lemma DayOfIs(f: Fields)
    requires Real(f)
    ensures DayOf(f) == DayFromYear(f.year) + MonthStart(f.month - 1, Leap(f.year)) + f.day - 1
  {
    WithinYear(f.year, f.month - 1, f.day);
  }

  lemma DaysGrow(f: Fields, g: Fields)
    requires Real(f) && Real(g) && Earlier(f, g)
    ensures DayOf(f) < DayOf(g)
  {
    DayOfIs(f);
    DayOfIs(g);
    MonthsFitYear(f.month - 1, f.year);
    if f.year < g.year {
      YearsGrow(f.year, g.year);
    } else if f.month < g.month {
      MonthsGrow(f.month - 1, g.month - 1, Leap(f.year));
    }
  }

  lemma TimesTellApart(f: Fields, g: Fields)
    requires Real(f) && Real(g)
    ensures 0 <= MakeTime(f) < 86400000
    ensures MakeTime(f) == MakeTime(g) ==> f.hour == g.hour && f.minute == g.minute && f.second == g.second
  {
  }

  lemma DayAndTime(d: int, t: int, e: int, u: int)
    requires d * 86400000 + t == e * 86400000 + u && 0 <= t < 86400000 && 0 <= u < 86400000
    ensures d == e && t == u
  {
  }

  lemma UtcIs(f: Fields)
    requires 100 <= f.year
    ensures UTC(f) == DayOf(f) * 86400000 + MakeTime(f)
  {
  }

  lemma StartOfYear(f: Fields)
    requires 100 <= f.year && f.month == f.day == 1 && f.hour == f.minute == f.second == 0
    ensures UTC(f) == DayFromYear(f.year) * 86400000
  {
    UtcIs(f);
    WithinYear(f.year, 0, 1);
    var day, start := DayOf(f), MonthStart(0, Leap(f.year));
    assert start == 0 && day == DayFromYear(f.year) + start && MakeTime(f) == 0;
  }

  /** From the year 100 on, no two existing dates share a number. */
  lemma UtcTellsApart(f: Fields, g: Fields)
    requires Real(f) && Real(g) && 100 <= f.year && 100 <= g.year && UTC(f) == UTC(g)
    ensures f == g
  {
    UtcIs(f);
    UtcIs(g);
    TimesTellApart(f, g);
    TimesTellApart(g, f);
    DayAndTime(DayOf(f), MakeTime(f), DayOf(g), MakeTime(g));
    if Earlier(f, g) {
      DaysGrow(f, g);
    } else if Earlier(g, f) {
      DaysGrow(g, f);
    }
  }

  /** The date from the year 100 on that has the same number: early years move by 1900, and the 29th of February of
      the year 0 becomes the 1st of March 1900, which is no leap year. */
  function Canonical(f: Fields): Fields {
    if 100 <= f.year then f
    else if f.year == 0 && f.month == 2 && f.day == 29 then f.(year := 1900, month := 3, day := 1)
    else f.(year := 1900 + f.year)
  }

  lemma LeapStays(y: nat)
    requires 1 <= y <= 99
    ensures Leap(1900 + y) == Leap(y)
  {
  }

  lemma CanonicalIsReal(f: Fields)
    requires Real(f)
    ensures Real(Canonical(f)) && 100 <= Canonical(f).year
  {
    if 1 <= f.year <= 99 {
      LeapStays(f.year);
    }
  }

  lemma MarchFollows()
    ensures MakeDay(1900, 1, 29) == MakeDay(1900, 2, 1)
  {
    var y := 1900;
    WithinYear(y, 1, 29);
    WithinYear(y, 2, 1);
    assert !Leap(y) && MonthStart(1, false) == 31 && MonthStart(2, false) == 59;
  }

  lemma EarlyYearMoves(f: Fields)
    requires f.year <= 99
    ensures UTC(f) == UTC(f.(year := 1900 + f.year))
  {
  }

  lemma LeapDayMoves(f: Fields)
    requires f.year == 0 && f.month == 2 && f.day == 29
    ensures UTC(f) == UTC(f.(year := 1900, month := 3, day := 1))
  {
    var g := f.(year := 1900, month := 3, day := 1);
    MarchFollows();
    assert UTC(f) == MakeDay(1900, 1, 29) * 86400000 + MakeTime(f);
    assert UTC(g) == MakeDay(1900, 2, 1) * 86400000 + MakeTime(g);
  }

  lemma CanonicalKeepsNumber(f: Fields)
    ensures UTC(Canonical(f)) == UTC(f)
  {
    if f.year == 0 && f.month == 2 && f.day == 29 {
      LeapDayMoves(f);
    } else if f.year <= 99 {
      EarlyYearMoves(f);
    }
  }

  /** Exactly which existing dates share a number: those with the same canonical form. */
  lemma SameNumberIffSameCanonical(f: Fields, g: Fields)
    requires Real(f) && Real(g)
    ensures UTC(f) == UTC(g) <==> Canonical(f) == Canonical(g)
  {
    CanonicalIsReal(f);
    CanonicalIsReal(g);
    CanonicalKeepsNumber(f);
    CanonicalKeepsNumber(g);
    if UTC(f) == UTC(g) {
      UtcTellsApart(Canonical(f), Canonical(g));
    }
  }

  lemma Thousands(n: int)
    ensures n * 1000 % 1000 == 0
  {
  }

  lemma UtcIsWholeSeconds(f: Fields)
    ensures UTC(f) % 1000 == 0
  {
    var year := if f.year <= 99 then 1900 + f.year else f.year;
    var day := MakeDay(year, f.month - 1, f.day);
    Thousands(day * 86400 + f.hour * 3600 + f.minute * 60 + f.second);
  }
}
