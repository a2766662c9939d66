/** Calendar dates as the views use them: `YYYY-MM-DD` strings, the day
    numbers they denote (`new Date("YYYY-MM-DD")` is midnight UTC of that
    day), instants in milliseconds, the `Math.ceil(diff / day)` day
    difference and the `YYYY-MM` payroll-month keys.

    Day numbers count days from 0000-01-01 in the proleptic Gregorian
    calendar and instants count milliseconds from its midnight (UTC);
    JavaScript counts from 1970, a constant shift that no difference or
    comparison below can observe. */
module Calendar {
  import opened Common
  import opened Text

  predicate IsLeapYear(y: int) {
    y % 4 == 0 && (y % 100 != 0 || y % 400 == 0)
  }

  function YearLength(y: int): int {
    if IsLeapYear(y) then 366 else 365
  }

  function DaysInMonth(y: int, m: int): int
    requires 1 <= m <= 12
  {
    if m == 2 then (if IsLeapYear(y) then 29 else 28)
    else if m == 4 || m == 6 || m == 9 || m == 11 then 30
    else 31
  }

  /** Days of year `y` before the first of month `m`; `m == 13` gives the
      length of the year. */
  function DaysBeforeMonth(y: int, m: int): int
    requires 1 <= m <= 13
  {
    var leap := if m > 2 && IsLeapYear(y) then 1 else 0;
    leap + (if m == 1 then 0 else if m == 2 then 31 else if m == 3 then 59
      else if m == 4 then 90 else if m == 5 then 120 else if m == 6 then 151
      else if m == 7 then 181 else if m == 8 then 212 else if m == 9 then 243
      else if m == 10 then 273 else if m == 11 then 304 else if m == 12 then 334
      else 365)
  }

  /** Days from 0000-01-01 to the first of January of year `y`. */
  function DaysBeforeYear(y: nat): nat {
    if y == 0 then 0 else DaysBeforeYear(y - 1) + YearLength(y - 1)
  }

  predicate ValidDate(y: nat, m: int, d: int) {
    1 <= m <= 12 && 1 <= d <= DaysInMonth(y, m)
  }

  function DayNumber(y: nat, m: int, d: int): int
    requires ValidDate(y, m, d)
  {
    DaysBeforeYear(y) + DaysBeforeMonth(y, m) + d - 1
  }

  lemma {:induction false} DaysBeforeYearGrows(y: nat, y': nat)
    requires y < y'
    ensures DaysBeforeYear(y) + YearLength(y) <= DaysBeforeYear(y')
    decreases y'
  {
    if y + 1 < y' {
      DaysBeforeYearGrows(y, y' - 1);
    }
  }

  /** A date that is earlier in (year, month, day) order has a smaller day
      number. */
  lemma EarlierDateSmallerDay(y: nat, m: int, d: int, y': nat, m': int, d': int)
    requires ValidDate(y, m, d) && ValidDate(y', m', d')
    requires y < y' || (y == y' && (m < m' || (m == m' && d < d')))
    ensures DayNumber(y, m, d) < DayNumber(y', m', d')
  {
    assert DaysBeforeMonth(y, m) + DaysInMonth(y, m) <= DaysBeforeMonth(y, 13) == YearLength(y);
    if y < y' {
      DaysBeforeYearGrows(y, y');
    } else if m < m' {
      assert DaysBeforeMonth(y, m) + DaysInMonth(y, m) <= DaysBeforeMonth(y, m');
    }
  }

  /** Day numbers order valid dates exactly as (year, month, day) does. */
  lemma DayNumberOrder(y: nat, m: int, d: int, y': nat, m': int, d': int)
    requires ValidDate(y, m, d) && ValidDate(y', m', d')
    ensures DayNumber(y, m, d) < DayNumber(y', m', d') <==>
              y < y' || (y == y' && (m < m' || (m == m' && d < d')))
    ensures DayNumber(y, m, d) == DayNumber(y', m', d') <==> y == y' && m == m' && d == d'
  {
    if y < y' || (y == y' && (m < m' || (m == m' && d < d'))) {
      EarlierDateSmallerDay(y, m, d, y', m', d');
    } else if y' < y || (y == y' && (m' < m || (m == m' && d' < d))) {
      EarlierDateSmallerDay(y', m', d', y, m, d);
    }
  }

  /** A string `new Date` reads as a calendar date: `YYYY-MM-DD` naming a
      day that exists. */
  predicate IsDateString(s: string) {
    && |s| == 10 && s[4] == '-' && s[7] == '-'
    && AllDigits(s[..4]) && AllDigits(s[5..7]) && AllDigits(s[8..])
    && ValidDate(Val(s[..4]), Val(s[5..7]), Val(s[8..]))
  }

  function DayOf(s: string): int
    requires IsDateString(s)
  {
    DayNumber(Val(s[..4]), Val(s[5..7]), Val(s[8..]))
  }

  /** `new Date(s)` as a day number; `None` is an Invalid Date. */
  function ParseDate(s: string): (r: Option<int>)
    ensures r.Some? <==> IsDateString(s)
    ensures r.Some? ==> r.value == DayOf(s)
  {
    if IsDateString(s) then Some(DayOf(s)) else None
  }

  lemma DateStringLt(a: string, b: string)
    requires IsDateString(a) && IsDateString(b)
    ensures Lt(a, b) <==> DayOf(a) < DayOf(b)
  {
    var a4, b4 := a[4..], b[4..];
    var a5, b5 := a[5..], b[5..];
    var a7, b7 := a[7..], b[7..];
    LtAt(a, b, 4);
    LtAt(a4, b4, 1);
    assert a4[..1] == b4[..1] == "-" && !Lt("-", "-");
    assert a4[1..] == a5 && b4[1..] == b5;
    LtAt(a5, b5, 2);
    assert a5[..2] == a[5..7] && b5[..2] == b[5..7];
    assert a5[2..] == a7 && b5[2..] == b7;
    LtAt(a7, b7, 1);
    assert a7[..1] == b7[..1] == "-";
    assert a7[1..] == a[8..] && b7[1..] == b[8..];
    DigitsOrder(a[..4], b[..4]);
    DigitsOrder(a[5..7], b[5..7]);
    DigitsOrder(a[8..], b[8..]);
    DayNumberOrder(Val(a[..4]), Val(a[5..7]), Val(a[8..]), Val(b[..4]), Val(b[5..7]), Val(b[8..]));
  }

  /** For `YYYY-MM-DD` strings, JavaScript's string comparisons agree with
      the chronological order of the days. */
  lemma DateStringOrder(a: string, b: string)
    requires IsDateString(a) && IsDateString(b)
    ensures Lt(a, b) <==> DayOf(a) < DayOf(b)
    ensures Le(a, b) <==> DayOf(a) <= DayOf(b)
  {
    DateStringLt(a, b);
    DateStringLt(b, a);
  }

  /** `1000 * 60 * 60 * 24`. */
  const MsPerDay: int := 86400000

  /** `Math.ceil(a / b)` for integers `a` and `b > 0`. Both operands of the
      divisions below are whole milliseconds far below 2^53, so the double
      quotient lies strictly between the same two integers as the exact one
      (or is exact), and only the exact quotient is modelled. */
  function CeilDiv(a: int, b: int): int
    requires b > 0
  {
    -((-a) / b)
  }

  /** The calendar day (UTC) that contains the instant `now`. */
  function Today(now: int): int {
    now / MsPerDay
  }

  /** Taking the ceiling of a whole number of days minus a part of a day
      gives back the whole number. */
  lemma CeilDivDays(n: int, t: int)
    requires 0 <= t < MsPerDay
    ensures CeilDiv(n * MsPerDay - t, MsPerDay) == n
  {
    var a := -(n * MsPerDay - t);
    assert a == (-n) * MsPerDay + t;
    assert a / MsPerDay == -n;
  }

  /** `Math.ceil((new Date(date).getTime() - now) / day)`, `None` (NaN) when
      `date` is not a date: for a date it is the number of calendar days
      from today to that date, whatever the time of day. */
  function DiffDays(date: string, now: int): (r: Option<int>)
    ensures r.Some? <==> IsDateString(date)
    ensures r.Some? ==> r.value == DayOf(date) - Today(now)
  {
    match ParseDate(date)
    case None => None
    case Some(e) =>
      var d := CeilDiv(e * MsPerDay - now, MsPerDay);
      assert now == Today(now) * MsPerDay + now % MsPerDay;
      assert e * MsPerDay - now == (e - Today(now)) * MsPerDay - now % MsPerDay;
      CeilDivDays(e - Today(now), now % MsPerDay);
      Some(d)
  }

  /** `new Date(date) < now`: midnight of `date` lies before the instant. It
      holds for the days before today, and for today itself once the day has
      begun; never for a string that is not a date (NaN). */
  function IsBefore(date: string, now: int): (r: bool)
    ensures r <==> IsDateString(date) &&
                   (DayOf(date) < Today(now) || (DayOf(date) == Today(now) && now % MsPerDay != 0))
  {
    match ParseDate(date)
    case None => false
    case Some(e) =>
      assert now == Today(now) * MsPerDay + now % MsPerDay;
      e * MsPerDay < now
  }

  /** `s.padStart(2, '0')`. */
  function PadStart2(s: string): (r: string)
    ensures |r| == if |s| < 2 then 2 else |s|
  {
    if |s| == 0 then "00" else if |s| == 1 then "0" + s else s
  }

  /** `` `${year}-${String(month).padStart(2, '0')}` ``, the `YYYY-MM` key a
      payroll month is stored and selected under. */
  function MonthKey(year: nat, month: int): (r: string)
    requires 1 <= month <= 12
    ensures |r| == |ShowNat(year)| + 3
    ensures ParseMonthKey(r) == Some((year, month))
  {
    var y, mm := ShowNat(year), PadStart2(ShowNat(month));
    var r := y + "-" + mm;
    assert r[..|r| - 3] == y && r[|r| - 3] == '-' && r[|r| - 2..] == mm;
    assert AllDigits(mm) && Val(mm) == month by {
      if month < 10 {
        assert mm == "0" + ShowNat(month);
        assert mm[..1] == "0";
      } else {
        assert ShowNat(month) == ShowNat(month / 10) + [DigitChar(month % 10)];
      }
    }
    r
  }

  /** `monthStr.split('-')` into a year and a month number, for keys made of
      digits, a `-` and two month digits (what the month picker and
      `MonthKey` produce); `None` for any other text. */
  function ParseMonthKey(k: string): Option<(nat, int)> {
    if 4 <= |k| && k[|k| - 3] == '-' && AllDigits(k[..|k| - 3]) && AllDigits(k[|k| - 2..])
    then Some((Val(k[..|k| - 3]), Val(k[|k| - 2..])))
    else None
  }

  /** Different months (or years) have different keys. */
  lemma MonthKeyInjective(y: nat, m: int, y': nat, m': int)
    requires 1 <= m <= 12 && 1 <= m' <= 12
    ensures MonthKey(y, m) == MonthKey(y', m') <==> y == y' && m == m'
  {
  }

  /** A four-digit year is written with four digits. */
  lemma FourDigitYear(year: nat)
    requires 1000 <= year <= 9999
    ensures |ShowNat(year)| == 4
  {
    var y1, y2, y3 := year / 10, year / 10 / 10, year / 10 / 10 / 10;
    assert 1 <= y3 < 10 <= y2;
    assert |ShowNat(year)| == |ShowNat(y1)| + 1;
    assert |ShowNat(y1)| == |ShowNat(y2)| + 1;
    assert |ShowNat(y2)| == |ShowNat(y3)| + 1 == 2;
  }

  /** For a four-digit year the key is exactly `YYYY-MM`. */
  lemma MonthKeyLength(year: nat, month: int)
    requires 1000 <= year <= 9999 && 1 <= month <= 12
    ensures |MonthKey(year, month)| == 7
  {
    FourDigitYear(year);
  }

  /** `` `${year}-01-01` ``, the first day of a year. */
  function YearStart(year: nat): string {
    ShowNat(year) + "-01-01"
  }

  /** `` `${year}-12-31` ``, the last day of a year. */
  function YearEnd(year: nat): string {
    ShowNat(year) + "-12-31"
  }

  /** For a four-digit year both bounds are date strings naming the first
      and the last day of that year. */
  lemma YearBounds(year: nat)
    requires 1000 <= year <= 9999
    ensures IsDateString(YearStart(year)) && DayOf(YearStart(year)) == DayNumber(year, 1, 1)
    ensures IsDateString(YearEnd(year)) && DayOf(YearEnd(year)) == DayNumber(year, 12, 31)
  {
    FourDigitYear(year);
    var a, b := YearStart(year), YearEnd(year);
    assert a[..4] == ShowNat(year) && a[4] == '-' && a[5..7] == "01" && a[7] == '-' && a[8..] == "01";
    assert b[..4] == ShowNat(year) && b[4] == '-' && b[5..7] == "12" && b[7] == '-' && b[8..] == "31";
    assert Val("01") == 1 by { assert "01"[..1] == "0" && "0"[..0] == ""; }
    assert Val("12") == 12 by { assert "12"[..1] == "1" && "1"[..0] == ""; }
    assert Val("31") == 31 by { assert "31"[..1] == "3" && "3"[..0] == ""; }
  }

  /** A date string lies between the bounds of a four-digit year, in
      string order, exactly when its year is that year. */
  lemma WithinYear(year: nat, s: string)
    requires 1000 <= year <= 9999 && IsDateString(s)
    ensures Le(YearStart(year), s) && Le(s, YearEnd(year)) <==> Val(s[..4]) == year
  {
    YearBounds(year);
    DateStringOrder(YearStart(year), s);
    DateStringOrder(s, YearEnd(year));
    var y, m, d := Val(s[..4]), Val(s[5..7]), Val(s[8..]);
    DayNumberOrder(year, 1, 1, y, m, d);
    DayNumberOrder(y, m, d, year, 12, 31);
  }
}
