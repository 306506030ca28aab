/** The proleptic Gregorian calendar by counting, the closed formula of `ToJulianDate`, and the
    round trip of a date-time through a Julian-day double. */
module JulianDay {
  import opened Division

  // ---- the calendar, by counting ----

  predicate LeapYear(y: nat) {
    y % 4 == 0 && (y % 100 != 0 || y % 400 == 0)
  }

  function DaysInMonth(y: nat, m: nat): nat {
    if m == 2 then (if LeapYear(y) then 29 else 28)
    else if m == 4 || m == 6 || m == 9 || m == 11 then 30
    else 31
  }

  datatype Date = Date(year: nat, month: nat, day: nat)

  predicate Valid(d: Date) {
    d.year >= 1 && 1 <= d.month <= 12 && 1 <= d.day <= DaysInMonth(d.year, d.month)
  }

  /** Days of the years before `y`, counted one year at a time from year 1. */
  function DaysBeforeYear(y: nat): nat
    requires y >= 1
  {
    if y == 1 then 0 else DaysBeforeYear(y - 1) + if LeapYear(y - 1) then 366 else 365
  }

  /** Days of the months before `m` of year `y`, counted one month at a time. */
  function DaysBeforeMonth(y: nat, m: nat): nat
    requires 1 <= m <= 12
  {
    if m == 1 then 0 else DaysBeforeMonth(y, m - 1) + DaysInMonth(y, m - 1)
  }

  /** Days from 0001-01-01 to `d`. */
  function DayCount(d: Date): nat
    requires Valid(d)
  {
    DaysBeforeYear(d.year) + DaysBeforeMonth(d.year, d.month) + d.day - 1
  }

  function Tomorrow(d: Date): Date
    requires Valid(d)
  {
    if d.day < DaysInMonth(d.year, d.month) then d.(day := d.day + 1)
    else if d.month < 12 then Date(d.year, d.month + 1, 1)
    else Date(d.year + 1, 1, 1)
  }

  predicate Before(d: Date, e: Date) {
    d.year < e.year || (d.year == e.year && (d.month < e.month || (d.month == e.month && d.day < e.day)))
  }

  lemma MultiplesNest(n: nat)
    ensures n % 100 == 0 ==> n % 4 == 0
    ensures n % 400 == 0 ==> n % 100 == 0
  {
    if n % 100 == 0 {
      assert n == 100 * (n / 100);
      Quotient(n, 4, 25 * (n / 100), 0);
    }
    if n % 400 == 0 {
      assert n == 400 * (n / 400);
      Quotient(n, 100, 4 * (n / 400), 0);
    }
  }

  /** How the leap days before a year grow with the year. */
  lemma LeapStep(n: nat)
    ensures (n + 1) / 4 - (n + 1) / 100 + (n + 1) / 400
              == n / 4 - n / 100 + n / 400 + if LeapYear(n + 1) then 1 else 0
  {
    NextQuotient(n, 4);
    NextQuotient(n, 100);
    NextQuotient(n, 400);
    MultiplesNest(n + 1);
  }

  lemma {:induction false} DaysBeforeYearClosed(y: nat)
    requires y >= 1
    ensures DaysBeforeYear(y) == 365 * (y - 1) + (y - 1) / 4 - (y - 1) / 100 + (y - 1) / 400
  {
    if y > 1 {
      DaysBeforeYearClosed(y - 1);
      LeapStep(y - 2);
    }
  }

  // ---- the formula of ToJulianDate ----

  /** The first lines of `ToJulianDate`: `x1 + x2 + d + b`, whose divisions truncate (all operands
      are nonnegative). */
  function DaySum(year: nat, month: nat, day: nat): int
    requires year >= 1
  {
    var y := if month <= 2 then year - 1 else year;
    var m := if month <= 2 then month + 12 else month;
    var a := y / 100;
    var b := 2 - a + a / 4;
    var x1 := 36525 * (y + 4716) / 100;
    var x2 := 306001 * (m + 1) / 10000;
    x1 + x2 + day + b
  }

  function LeapDays(n: nat): int { n / 4 - n / 100 + n / 400 }

  lemma CenturyDays(y: nat)
    ensures 36525 * (y + 4716) / 100 + (2 - y / 100 + y / 100 / 4) == 365 * y + LeapDays(y) + 1722521
  {
    assert 36525 * (y + 4716) == 100 * (365 * (y + 4716)) + 25 * (y + 4716);
    assert 25 * (y + 4716) / 100 == (y + 4716) / 4;
    assert y / 100 / 4 == y / 400;
  }

  lemma MonthTerm(m: nat)
    requires 1 <= m <= 12
    ensures 306001 * ((if m <= 2 then m + 12 else m) + 1) / 10000
              == [428, 459, 122, 153, 183, 214, 244, 275, 306, 336, 367, 397][m - 1]
  {
  }

  lemma MonthDays(y: nat, m: nat)
    requires 1 <= m <= 12
    ensures
      var leap := if LeapYear(y) then 1 else 0;
      DaysBeforeMonth(y, m) == [0, 31, 59 + leap, 90 + leap, 120 + leap, 151 + leap, 181 + leap,
                                212 + leap, 243 + leap, 273 + leap, 304 + leap, 334 + leap][m - 1]
  {
    assert DaysBeforeMonth(y, 1) == 0;
    assert DaysBeforeMonth(y, 2) == 31;
    assert DaysBeforeMonth(y, 3) == DaysBeforeMonth(y, 2) + DaysInMonth(y, 2);
    assert m >= 4 ==> DaysBeforeMonth(y, 4) == DaysBeforeMonth(y, 3) + 31;
    assert m >= 5 ==> DaysBeforeMonth(y, 5) == DaysBeforeMonth(y, 4) + 30;
    assert m >= 6 ==> DaysBeforeMonth(y, 6) == DaysBeforeMonth(y, 5) + 31;
    assert m >= 7 ==> DaysBeforeMonth(y, 7) == DaysBeforeMonth(y, 6) + 30;
    assert m >= 8 ==> DaysBeforeMonth(y, 8) == DaysBeforeMonth(y, 7) + 31;
    assert m >= 9 ==> DaysBeforeMonth(y, 9) == DaysBeforeMonth(y, 8) + 31;
    assert m >= 10 ==> DaysBeforeMonth(y, 10) == DaysBeforeMonth(y, 9) + 30;
    assert m >= 11 ==> DaysBeforeMonth(y, 11) == DaysBeforeMonth(y, 10) + 31;
    assert m >= 12 ==> DaysBeforeMonth(y, 12) == DaysBeforeMonth(y, 11) + 30;
  }

  lemma DaySumClosed(d: Date)
    requires Valid(d)
    ensures
      var y := if d.month <= 2 then d.year - 1 else d.year;
      DaySum(d.year, d.month, d.day) == 365 * y + LeapDays(y) + 1722521 + d.day
        + [428, 459, 122, 153, 183, 214, 244, 275, 306, 336, 367, 397][d.month - 1]
  {
    CenturyDays(if d.month <= 2 then d.year - 1 else d.year);
    MonthTerm(d.month);
  }

  lemma FormulaEarly(d: Date)
    requires Valid(d) && d.month <= 2
    ensures DaySum(d.year, d.month, d.day) == DayCount(d) + 1722950
  {
    DaysBeforeYearClosed(d.year);
    DaySumClosed(d);
    assert DaysBeforeMonth(d.year, d.month) == if d.month == 1 then 0 else 31;
  }

  /** From March on the two ways to count the days of the months differ by a constant. */
  lemma MonthTables(m: nat, leap: nat)
    requires 2 < m <= 12
    ensures
      [428, 459, 122, 153, 183, 214, 244, 275, 306, 336, 367, 397][m - 1] + leap
        == [0, 31, 59 + leap, 90 + leap, 120 + leap, 151 + leap, 181 + leap,
            212 + leap, 243 + leap, 273 + leap, 304 + leap, 334 + leap][m - 1] + 63
  {
  }

  lemma FormulaLate(d: Date)
    requires Valid(d) && d.month > 2
    ensures DaySum(d.year, d.month, d.day) == DayCount(d) + 1722950
  {
    var leap := if LeapYear(d.year) then 1 else 0;
    DaysBeforeYearClosed(d.year);
    DaySumClosed(d);
    MonthDays(d.year, d.month);
    MonthTables(d.month, leap);
    assert LeapDays(d.year) == LeapDays(d.year - 1) + leap by { LeapStep(d.year - 1); }
  }

  /** Calendar correctness: for every valid date the formula is the day count by months and leap
      years, shifted so that its epoch is the Julian one. */
  lemma FormulaCountsDays(d: Date)
    requires Valid(d)
    ensures DaySum(d.year, d.month, d.day) == DayCount(d) + 1722950
  {
    if d.month <= 2 { FormulaEarly(d); } else { FormulaLate(d); }
  }

  /** From each day to the next the formula grows by exactly one: across months, leap days,
      centuries and multiples of 400 years. */
  lemma FormulaOfTomorrow(d: Date)
    requires Valid(d)
    ensures Valid(Tomorrow(d))
    ensures var e := Tomorrow(d); DaySum(e.year, e.month, e.day) == DaySum(d.year, d.month, d.day) + 1
  {
    FormulaCountsDays(d);
    FormulaCountsDays(Tomorrow(d));
    if d.day == DaysInMonth(d.year, d.month) && d.month == 12 {
      MonthDays(d.year, 12);
    }
  }

  lemma {:induction false} YearsMonotone(y: nat, z: nat)
    requires 1 <= y <= z
    ensures DaysBeforeYear(y) + 365 * (z - y) <= DaysBeforeYear(z)
  {
    if y < z { YearsMonotone(y, z - 1); }
  }

  lemma {:induction false} MonthsMonotone(y: nat, m: nat, n: nat)
    requires 1 <= m < n <= 12
    ensures DaysBeforeMonth(y, m) + DaysInMonth(y, m) <= DaysBeforeMonth(y, n)
  {
    if m < n - 1 { MonthsMonotone(y, m, n - 1); }
  }

  lemma DayOfYear(d: Date)
    requires Valid(d)
    ensures DaysBeforeYear(d.year) <= DayCount(d) < DaysBeforeYear(d.year + 1)
  {
    MonthDays(d.year, d.month);
  }

  /** The formula orders dates as the calendar does, so different dates have different numbers. */
  lemma FormulaOrdersDates(d: Date, e: Date)
    requires Valid(d) && Valid(e)
    ensures Before(d, e) <==> DaySum(d.year, d.month, d.day) < DaySum(e.year, e.month, e.day)
    ensures DaySum(d.year, d.month, d.day) == DaySum(e.year, e.month, e.day) ==> d == e
  {
    FormulaCountsDays(d);
    FormulaCountsDays(e);
    if Before(d, e) {
      CountOrdersDates(d, e);
    } else if Before(e, d) {
      CountOrdersDates(e, d);
    }
  }

  lemma CountOrdersDates(d: Date, e: Date)
    requires Valid(d) && Valid(e) && Before(d, e)
    ensures DayCount(d) < DayCount(e)
  {
    if d.year < e.year {
      DayOfYear(d);
      DayOfYear(e);
      YearsMonotone(d.year + 1, e.year);
    } else if d.month < e.month {
      MonthsMonotone(d.year, d.month, e.month);
    }
  }

  /** In the range of DateTime no intermediate product leaves 32 bits. */
  lemma FormulaFits(d: Date)
    requires Valid(d) && d.year <= 9999
    ensures 36525 * (d.year + 4716) < 0x8000_0000 && 306001 * (d.month + 13) < 0x8000_0000
    ensures 1721425 < DaySum(d.year, d.month, d.day) - 1524 <= 5373484
  {
    FormulaCountsDays(d);
    DaysBeforeYearClosed(d.year);
    MonthDays(d.year, d.month);
  }

  // ---- doubles ----

  const TWO_TO_53 := 9007199254740992

  /** Rounding of a real result to a double: integers and half-integers up to 2^52 are doubles,
      and any other result is off by a relative error of at most 2^-53. */
  ghost predicate IsRounding(fl: real -> real) {
    && (forall x: real :: -Abs(x) <= (fl(x) - x) * 9007199254740992.0 <= Abs(x))
    && (forall k: int :: -TWO_TO_53 <= k <= TWO_TO_53 ==> fl(Half(k)) == Half(k))
  }

  function Half(k: int): real { k as real / 2.0 }

  function Abs(x: real): real { if x >= 0.0 then x else -x }

  /** The cast of a double to `long`. */
  function Truncate(x: real): int { if x >= 0.0 then x.Floor else -(-x).Floor }

  /** `Math.Round` away from zero at the midpoint. */
  function RoundAway(x: real): int { if x >= 0.0 then (x + 0.5).Floor else -(-x + 0.5).Floor }

  datatype Time = Time(hour: nat, minute: nat, second: nat, millisecond: nat)

  predicate ValidTime(t: Time) {
    t.hour < 24 && t.minute < 60 && t.second < 60 && t.millisecond < 1000
  }

  /** Milliseconds since 0001-01-01, the millisecond part of a DateTime. */
  function Instant(d: Date, t: Time): int
    requires Valid(d)
  {
    DayCount(d) * 86400000 + t.hour * 3600000 + t.minute * 60000 + t.second * 1000 + t.millisecond
  }

  /** The whole milliseconds `ToJulianDate` makes of the seconds. */
  function SecondsInMs(fl: real -> real, t: Time): int {
    Truncate(fl(fl(t.second as real + fl(t.millisecond as real / 1000.0)) * 1000.0))
  }

  /** `julianMilliseconds`. */
  function JulianMs(fl: real -> real, d: Date, t: Time): int
    requires d.year >= 1
  {
    var midnight := Truncate(fl(fl(DaySum(d.year, d.month, d.day) as real - 1524.5) * 86400000.0));
    midnight + (t.hour * 3600000 + t.minute * 60000 + SecondsInMs(fl, t))
  }

  function ToJulianDate(fl: real -> real, d: Date, t: Time): real
    requires d.year >= 1
  {
    fl(JulianMs(fl, d, t) as real / 86400000.0)
  }

  const UNIX_EPOCH_DAYS := 719162

  /** `JulianDayToDateTime`, in milliseconds since 0001-01-01. */
  function FromJulianDay(fl: real -> real, julianDay: real): int {
    var ticksSinceUnixEpoch := fl(fl(julianDay - 2440587.5) * 864000000000.0);
    UNIX_EPOCH_DAYS * 86400000 + RoundAway(fl(ticksSinceUnixEpoch / 10000.0))
  }

  lemma Exact(fl: real -> real, k: int)
    requires IsRounding(fl) && -TWO_TO_53 <= k <= TWO_TO_53
    ensures fl(k as real / 2.0) == k as real / 2.0
  {
    assert fl(Half(k)) == Half(k);
  }

  lemma Near(fl: real -> real, x: real, bound: real)
    requires IsRounding(fl) && -bound <= x <= bound
    ensures -bound <= (fl(x) - x) * 9007199254740992.0 <= bound
  {
    assert -Abs(x) <= (fl(x) - x) * 9007199254740992.0 <= Abs(x);
  }

  lemma WholeSeconds(fl: real -> real, t: Time)
    requires IsRounding(fl) && ValidTime(t) && t.millisecond == 0
    ensures SecondsInMs(fl, t) == 1000 * t.second
  {
    Exact(fl, 0);
    Exact(fl, 2 * t.second);
    Exact(fl, 2000 * t.second);
    assert t.second as real + fl(0.0) == (2 * t.second) as real / 2.0;
    assert t.second as real * 1000.0 == (2000 * t.second) as real / 2.0;
  }

  lemma FractionalSeconds(fl: real -> real, t: Time)
    requires IsRounding(fl) && ValidTime(t) && t.millisecond > 0
    ensures 0 <= 1000 * t.second + t.millisecond - SecondsInMs(fl, t) <= 1
  {
    var a := t.millisecond as real / 1000.0;
    var b := t.second as real + fl(a);
    var c := fl(b) * 1000.0;
    Near(fl, a, 1.0);
    Near(fl, b, 61.0);
    Near(fl, c, 61001.0);
  }

  /** The seconds lose at most one millisecond to truncation, and none without a millisecond part. */
  lemma SecondsLoseAtMostOne(fl: real -> real, t: Time)
    requires IsRounding(fl) && ValidTime(t)
    ensures 0 <= 1000 * t.second + t.millisecond - SecondsInMs(fl, t) <= 1
    ensures t.millisecond == 0 ==> SecondsInMs(fl, t) == 1000 * t.second
  {
    if t.millisecond == 0 { WholeSeconds(fl, t); } else { FractionalSeconds(fl, t); }
  }

  /** Whole milliseconds survive the double: the drift of the four roundings stays under half a
      millisecond. */
  lemma MillisecondsSurvive(fl: real -> real, ms: int)
    requires IsRounding(fl) && 1721424 * 86400000 <= ms <= 5373485 * 86400000
    ensures FromJulianDay(fl, fl(ms as real / 86400000.0)) == ms - 148731163200000
  {
    var julianDay := ms as real / 86400000.0;
    Near(fl, julianDay, 5373485.0);
    var diff := fl(julianDay) - 2440587.5;
    Near(fl, diff, 2932899.0);
    var ticks := fl(diff) * 864000000000.0;
    Near(fl, ticks, 2534025600000000000.0);
    var q := fl(ticks) / 10000.0;
    Near(fl, q, 253402560000001.0);
    var n := ms - 210866760000000;
    assert -0.5 < fl(q) - n as real < 0.5;
  }

  /** Midnight is exact: the half day of the Julian epoch is a half-integer. */
  lemma MidnightExact(fl: real -> real, sum: int)
    requires IsRounding(fl) && 1722949 < sum <= 5375008
    ensures Truncate(fl(fl(sum as real - 1524.5) * 86400000.0)) == (2 * sum - 3049) * 43200000
  {
    Exact(fl, 2 * sum - 3049);
    assert sum as real - 1524.5 == (2 * sum - 3049) as real / 2.0;
    Exact(fl, (2 * sum - 3049) * 86400000);
    assert (sum as real - 1524.5) * 86400000.0 == ((2 * sum - 3049) * 86400000) as real / 2.0;
  }

  lemma DaySumCounts(d: Date)
    requires Valid(d) && d.year <= 9999
    ensures 2 * DaySum(d.year, d.month, d.day) - 3049 == 2 * DayCount(d) + 3442851
    ensures 1721425 < DaySum(d.year, d.month, d.day) - 1524 <= 5373484
  {
    FormulaCountsDays(d);
    FormulaFits(d);
  }

  lemma JulianMsSum(fl: real -> real, d: Date, t: Time)
    requires IsRounding(fl) && d.year >= 1 && 1721425 < DaySum(d.year, d.month, d.day) - 1524 <= 5373484
    ensures JulianMs(fl, d, t) ==
      (2 * DaySum(d.year, d.month, d.day) - 3049) * 43200000 + (t.hour * 3600000 + t.minute * 60000 + SecondsInMs(fl, t))
  {
    MidnightExact(fl, DaySum(d.year, d.month, d.day));
  }

  /** The sum of the parts, with the seconds as `seconds` milliseconds. */
  lemma PartsAddUp(d: Date, t: Time, sum: int, seconds: int, total: int)
    requires Valid(d) && ValidTime(t) && 0 <= 1000 * t.second + t.millisecond - seconds <= 1
    requires 2 * sum - 3049 == 2 * DayCount(d) + 3442851 && 1721425 < sum - 1524 <= 5373484
    requires total == (2 * sum - 3049) * 43200000 + (t.hour * 3600000 + t.minute * 60000 + seconds)
    ensures Instant(d, t) + 148731163200000 - total == 1000 * t.second + t.millisecond - seconds
    ensures 1721424 * 86400000 <= total <= 5373485 * 86400000
  {
  }

  lemma JulianMsNear(fl: real -> real, d: Date, t: Time)
    requires IsRounding(fl) && Valid(d) && d.year <= 9999 && ValidTime(t)
    ensures 0 <= Instant(d, t) + 148731163200000 - JulianMs(fl, d, t) <= 1
    ensures Instant(d, t) + 148731163200000 - JulianMs(fl, d, t) == 1000 * t.second + t.millisecond - SecondsInMs(fl, t)
    ensures 1721424 * 86400000 <= JulianMs(fl, d, t) <= 5373485 * 86400000
  {
    DaySumCounts(d);
    SecondsLoseAtMostOne(fl, t);
    JulianMsSum(fl, d, t);
    PartsAddUp(d, t, DaySum(d.year, d.month, d.day), SecondsInMs(fl, t), JulianMs(fl, d, t));
  }

  /** The round trip, with its error: a date-time of years 1 to 9999 comes back within a millisecond;
      it comes back as it was if and only if its seconds lose nothing to truncation, as those without
      a millisecond part. */
  lemma RoundTrip(fl: real -> real, d: Date, t: Time)
    requires IsRounding(fl) && Valid(d) && d.year <= 9999 && ValidTime(t)
    ensures 0 <= Instant(d, t) - FromJulianDay(fl, ToJulianDate(fl, d, t)) <= 1
    ensures FromJulianDay(fl, ToJulianDate(fl, d, t)) == Instant(d, t) <==> SecondsInMs(fl, t) == 1000 * t.second + t.millisecond
    ensures t.millisecond == 0 ==> FromJulianDay(fl, ToJulianDate(fl, d, t)) == Instant(d, t)
  {
    JulianMsNear(fl, d, t);
    SecondsLoseAtMostOne(fl, t);
    Decoded(fl, d, t, JulianMs(fl, d, t));
  }

  lemma Decoded(fl: real -> real, d: Date, t: Time, ms: int)
    requires IsRounding(fl) && d.year >= 1 && ms == JulianMs(fl, d, t)
    requires 1721424 * 86400000 <= ms <= 5373485 * 86400000
    ensures FromJulianDay(fl, ToJulianDate(fl, d, t)) == ms - 148731163200000
  {
    MillisecondsSurvive(fl, ms);
  }

  // ---- a millisecond lost ----

  /** A rounding that rounds a thousandth down, as double precision may, and changes nothing else. */
  function RoundsThousandth(): real -> real {
    x => if x == 0.001 then 0.001 - 0.001 / 9007199254740992.0 else x
  }

  lemma ThousandthIsRounding()
    ensures IsRounding(RoundsThousandth())
  {
    var fl := RoundsThousandth();
    forall x: real ensures -Abs(x) <= (fl(x) - x) * 9007199254740992.0 <= Abs(x) {
      if x == 0.001 { assert (fl(x) - x) * 9007199254740992.0 == -0.001; }
    }
    forall k: int | -TWO_TO_53 <= k <= TWO_TO_53 ensures fl(Half(k)) == Half(k) {
      assert Half(k) != 0.001;
    }
  }

  /** The truncation shows: with such a rounding a date-time of one millisecond comes back without it. */
  lemma MillisecondLost(d: Date)
    requires Valid(d) && d.year <= 9999
    ensures
      var fl, t := RoundsThousandth(), Time(0, 0, 0, 1);
      && IsRounding(fl) && SecondsInMs(fl, t) == 0
      && FromJulianDay(fl, ToJulianDate(fl, d, t)) == Instant(d, t) - 1
  {
    var fl, t := RoundsThousandth(), Time(0, 0, 0, 1);
    ThousandthIsRounding();
    var b := 0.001 - 0.001 / 9007199254740992.0;
    assert fl(t.millisecond as real / 1000.0) == b && fl(t.second as real + b) == b;
    assert fl(b * 1000.0) == 1.0 - 1.0 / 9007199254740992.0;
    RoundTrip(fl, d, t);
  }
}
