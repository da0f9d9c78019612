/** Proleptic Gregorian calendar dates, with the day numbering and weekday rule of
    Python's `datetime.date` (`toordinal`, `weekday`) and the `%Y-%m-%d` rendering. */
module Calendar {
  import opened Options
  import opened Text

  datatype Date = Date(year: int, month: int, day: int)

  predicate IsLeapYear(y: int) {
    y % 4 == 0 && (y % 100 != 0 || y % 400 == 0)
  }

  function DaysInMonth(y: int, m: int): int
    requires 1 <= m <= 12
  {
    if m == 2 then (if IsLeapYear(y) then 29 else 28)
    else if m == 4 || m == 6 || m == 9 || m == 11 then 30
    else 31
  }

  function DaysInYear(y: int): int {
    if IsLeapYear(y) then 366 else 365
  }

  /** A date `datetime.date` accepts: years 1 to 9999, real month lengths. */
  predicate ValidDate(d: Date) {
    && 1 <= d.year <= 9999
    && 1 <= d.month <= 12
    && 1 <= d.day <= DaysInMonth(d.year, d.month)
  }

  /** Days in the years before `y`, counted from 0001-01-01. */
  function DaysBeforeYear(y: int): int
    requires y >= 1
  {
    var p := y - 1;
    p * 365 + p / 4 - p / 100 + p / 400
  }

  /** Days in the months of year `y` before month `m`. */
  function DaysBeforeMonth(y: int, m: int): nat
    requires 1 <= m <= 13
  {
    if m == 1 then 0 else DaysBeforeMonth(y, m - 1) + DaysInMonth(y, m - 1)
  }

  /** Day number of `d`, with 0001-01-01 as day 1. */
  function Ordinal(d: Date): (r: int)
    requires ValidDate(d)
    ensures r >= 1
  {
    DaysBeforeYear(d.year) + DaysBeforeMonth(d.year, d.month) + d.day
  }

  /** Monday is 0 and Sunday is 6. */
  function Weekday(d: Date): (r: int)
    requires ValidDate(d)
    ensures 0 <= r < 7
  {
    (Ordinal(d) + 6) % 7
  }

  /** `a` is on or before `b` in calendar order. */
  predicate DateLe(a: Date, b: Date) {
    || a.year < b.year
    || (a.year == b.year && a.month < b.month)
    || (a.year == b.year && a.month == b.month && a.day <= b.day)
  }

  /** Going from one year to the next adds that year's length to the day count. */
  lemma DaysBeforeYearStep(y: int)
    requires y >= 1
    ensures DaysBeforeYear(y + 1) == DaysBeforeYear(y) + DaysInYear(y)
  {
    var p := y - 1;
    DivStep(p, 4);
    DivStep(p, 100);
    DivStep(p, 400);
    LeapCorrection(y);
    assert DaysBeforeYear(y + 1) == (p + 1) * 365 + (p + 1) / 4 - (p + 1) / 100 + (p + 1) / 400;
    assert DaysBeforeYear(y) == p * 365 + p / 4 - p / 100 + p / 400;
  }

  /** The three century corrections add up to the leap day. */
  lemma LeapCorrection(y: int)
    ensures (if y % 4 == 0 then 1 else 0) - (if y % 100 == 0 then 1 else 0) + (if y % 400 == 0 then 1 else 0)
            == DaysInYear(y) - 365
  {
    if y % 400 == 0 {
      var k := y / 400;
      assert y == 400 * k;
      MultipleMod(4 * k, 100);
      MultipleMod(100 * k, 4);
    } else if y % 100 == 0 {
      var k := y / 100;
      assert y == 100 * k;
      MultipleMod(25 * k, 4);
    }
  }

  /** A multiple of 4 or of 100 leaves no remainder. */
  lemma MultipleMod(m: int, d: int)
    requires d == 4 || d == 100
    ensures (d * m) % d == 0
  {
    if d == 4 {
      assert (4 * m) % 4 == 0;
    } else {
      assert (100 * m) % 100 == 0;
    }
  }

  /** The quotient by `d` grows by one exactly when the dividend reaches a multiple of `d`. */
  lemma DivStep(p: nat, d: int)
    requires d == 4 || d == 100 || d == 400
    ensures (p + 1) / d == p / d + (if (p + 1) % d == 0 then 1 else 0)
  {
  }

  /** The twelve months of a year add up to its length. */
  lemma MonthsFillYear(y: int)
    ensures DaysBeforeMonth(y, 13) == DaysInYear(y)
  {
    var feb := DaysInMonth(y, 2);
    assert DaysBeforeMonth(y, 2) == 31;
    assert DaysBeforeMonth(y, 3) == 31 + feb;
    assert DaysBeforeMonth(y, 4) == 62 + feb;
    assert DaysBeforeMonth(y, 5) == 92 + feb;
    assert DaysBeforeMonth(y, 6) == 123 + feb;
    assert DaysBeforeMonth(y, 7) == 153 + feb;
    assert DaysBeforeMonth(y, 8) == 184 + feb;
    assert DaysBeforeMonth(y, 9) == 215 + feb;
    assert DaysBeforeMonth(y, 10) == 245 + feb;
    assert DaysBeforeMonth(y, 11) == 276 + feb;
    assert DaysBeforeMonth(y, 12) == 306 + feb;
    assert DaysBeforeMonth(y, 13) == 337 + feb;
  }

  /** The day before `d` (`d - timedelta(days=1)`); 0001-01-01 has none. */
  function PrevDay(d: Date): (r: Date)
    requires ValidDate(d) && Ordinal(d) > 1
    ensures ValidDate(r) && Ordinal(r) == Ordinal(d) - 1
    ensures DateLe(r, d) && r != d
  {
    if d.day > 1 then Date(d.year, d.month, d.day - 1)
    else if d.month > 1 then
      assert DaysBeforeMonth(d.year, d.month)
               == DaysBeforeMonth(d.year, d.month - 1) + DaysInMonth(d.year, d.month - 1);
      Date(d.year, d.month - 1, DaysInMonth(d.year, d.month - 1))
    else
      assert DaysBeforeYear(1) == 0;
      assert d.year > 1;
      DaysBeforeYearStep(d.year - 1);
      MonthsFillYear(d.year - 1);
      assert DaysBeforeMonth(d.year - 1, 13) == DaysBeforeMonth(d.year - 1, 12) + 31;
      Date(d.year - 1, 12, 31)
  }

  /** The date `n` days before `d` (`d - timedelta(days=n)`). */
  function SubDays(d: Date, n: nat): (r: Date)
    requires ValidDate(d) && Ordinal(d) > n
    ensures ValidDate(r) && Ordinal(r) == Ordinal(d) - n
    ensures DateLe(r, d)
    decreases n
  {
    if n == 0 then d else SubDays(PrevDay(d), n - 1)
  }

  /** The Monday of `d`'s week (`d - timedelta(days=d.weekday())`). */
  function StartOfWeek(d: Date): (r: Date)
    requires ValidDate(d)
    ensures ValidDate(r) && Weekday(r) == 0
    ensures DateLe(r, d) && Ordinal(d) - 6 <= Ordinal(r) <= Ordinal(d)
  {
    var o := Ordinal(d);
    var w := Weekday(d);
    WeekdayBack(o, w);
    var r := SubDays(d, w);
    assert Weekday(r) == (o - w + 6) % 7;
    r
  }

  /** Stepping back by the weekday number stays after day 0 and lands on a Monday. */
  lemma WeekdayBack(o: int, w: int)
    requires o >= 1 && w == (o + 6) % 7
    ensures o > w && (o - w + 6) % 7 == 0
  {
  }

  /** `d` rendered by `strftime("%Y-%m-%d")`: four-digit year, two-digit month and day. */
  function FormatDate(d: Date): (r: string)
    requires ValidDate(d)
    ensures |r| == 10 && r[4] == '-' && r[7] == '-'
  {
    PadNatFits(d.year, 4);
    PadNatFits(d.month, 2);
    PadNatFits(d.day, 2);
    PadNat(d.year, 4) + "-" + PadNat(d.month, 2) + "-" + PadNat(d.day, 2)
  }

  /** Reads a `YYYY-MM-DD` string naming a real date. */
  function ParseDate(s: string): Option<Date> {
    if |s| != 10 || s[4] != '-' || s[7] != '-' then None
    else if !AllDigits(s[..4]) || !AllDigits(s[5..7]) || !AllDigits(s[8..]) then None
    else
      var d := Date(DigitsValue(s[..4]), DigitsValue(s[5..7]), DigitsValue(s[8..]));
      if ValidDate(d) then Some(d) else None
  }

  /** A rendered date reads back as the same date, so distinct dates render differently. */
  lemma ParseFormatDate(d: Date)
    requires ValidDate(d)
    ensures ParseDate(FormatDate(d)) == Some(d)
  {
    PadNatFits(d.year, 4);
    PadNatFits(d.month, 2);
    PadNatFits(d.day, 2);
    var s := FormatDate(d);
    assert s[..4] == PadNat(d.year, 4);
    assert s[5..7] == PadNat(d.month, 2);
    assert s[8..] == PadNat(d.day, 2);
  }
}
