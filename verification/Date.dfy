/** Julian day numbers: the closed-form conversions of Date.cc against the calendar itself -- the leap-year rule, the
    lengths of the months and the successor of a day. */
module Dates {
  import opened Common

  datatype Date = Date(year: int, month: int, day: int)

  /** getJulianDayNumber. */
  function JulianDay(date: Date): int {
    var a := Quot(14 - date.month, 12);
    var y := date.year + 4800 - a;
    var m := date.month + 12 * a - 3;
    date.day + Quot(153 * m + 2, 5) + y * 365 + Quot(y, 4) - Quot(y, 100) + Quot(y, 400) - 32045
  }

  /** getYearMonthDay. */
  function YearMonthDay(julianDay: int): Date {
    var a := julianDay + 32044;
    var b := Quot(4 * a + 3, 146097);
    var c := a - Quot(b * 146097, 4);
    var d := Quot(4 * c + 3, 1461);
    var e := c - Quot(1461 * d, 4);
    var m := Quot(5 * e + 2, 153);
    Date(b * 100 + d - 4800 + Quot(m, 10), m + 3 - 12 * Quot(m, 10), e - Quot(153 * m + 2, 5) + 1)
  }

  // ---------------------------------------------------------------------------------------------------------------
  // The Gregorian calendar, extended backwards

  predicate Leap(year: int) {
    year % 4 == 0 && (year % 100 != 0 || year % 400 == 0)
  }

  function DaysIn(year: int, month: int): int {
    if month == 2 then (if Leap(year) then 29 else 28)
    else if month == 4 || month == 6 || month == 9 || month == 11 then 30
    else 31
  }

  predicate IsDate(d: Date) {
    1 <= d.month <= 12 && 1 <= d.day <= DaysIn(d.year, d.month)
  }

  function NextDay(d: Date): Date {
    if d.day < DaysIn(d.year, d.month) then d.(day := d.day + 1)
    else if d.month < 12 then Date(d.year, d.month + 1, 1)
    else Date(d.year + 1, 1, 1)
  }

  predicate Earlier(d: Date, e: Date) {
    d.year < e.year || (d.year == e.year && (d.month < e.month || (d.month == e.month && d.day < e.day)))
  }

  /** From 1 March of the year -4800, where the shifted year of the algorithm starts at zero. */
  predicate InRange(d: Date) {
    d.year > -4800 || (d.year == -4800 && d.month >= 3)
  }

  // ---------------------------------------------------------------------------------------------------------------
  // The algorithm's own calendar: years beginning in March, counted from -4800

  function ShiftedYear(d: Date): int {
    d.year + 4800 - (if d.month < 3 then 1 else 0)
  }

  function ShiftedMonth(d: Date): int {
    if d.month < 3 then d.month + 9 else d.month - 3
  }

  function YearStart(y: nat): int {
    365 * y + y / 4 - y / 100 + y / 400
  }

  function MonthStart(m: nat): int {
    (153 * m + 2) / 5
  }

  /** Days from the last day of February -4800 on. */
  function DayCount(d: Date): int
    requires IsDate(d) && InRange(d)
  {
    YearStart(ShiftedYear(d)) + MonthStart(ShiftedMonth(d)) + d.day
  }

  lemma JulianDayByParts(d: Date)
    requires IsDate(d) && InRange(d)
    ensures JulianDay(d) == DayCount(d) - 32045
  {
    assert Quot(14 - d.month, 12) == if d.month < 3 then 1 else 0;
  }

  lemma LeapShift(year: int)
    ensures Leap(year) <==> Leap(year + 4800)
  {
    assert year == 400 * (year / 400) + year % 400;
    assert (year + 4800) / 400 == year / 400 + 12;
    assert (year + 4800) % 400 == year % 400;
    assert (year + 4800) % 100 == year % 100 && (year + 4800) % 4 == year % 4;
  }

  lemma YearLength(y: nat)
    ensures YearStart(y + 1) == YearStart(y) + 365 + (if Leap(y + 1) then 1 else 0)
  {
    QuotientStep(y, 4);
    QuotientStep(y, 100);
    QuotientStep(y, 400);
    assert (y + 1) % 400 == 0 ==> (y + 1) % 100 == 0;
    assert (y + 1) % 100 == 0 ==> (y + 1) % 4 == 0;
  }

  lemma QuotientStep(y: nat, k: nat)
    requires k == 4 || k == 100 || k == 400
    ensures (y + 1) / k == y / k + (if (y + 1) % k == 0 then 1 else 0)
  {
  }

  lemma {:induction false} YearsAreOrdered(y: nat, z: nat)
    requires y < z
    ensures YearStart(y + 1) <= YearStart(z)
    decreases z
  {
    if y + 1 < z {
      YearsAreOrdered(y, z - 1);
      YearLength(z - 1);
    }
  }

  /** A month ends where the next begins; February ends where the next shifted year begins. */
  lemma MonthLength(d: Date)
    requires IsDate(d) && InRange(d)
    ensures var m := ShiftedMonth(d);
            if m < 11 then MonthStart(m + 1) == MonthStart(m) + DaysIn(d.year, d.month)
            else YearStart(ShiftedYear(d) + 1) == YearStart(ShiftedYear(d)) + MonthStart(m) + DaysIn(d.year, d.month)
  {
    var m := ShiftedMonth(d);
    if m == 11 {
      LeapShift(d.year);
      YearLength(ShiftedYear(d));
    } else {
      assert m == 0 || m == 1 || m == 2 || m == 3 || m == 4 || m == 5 || m == 6 || m == 7 || m == 8 || m == 9 || m == 10;
    }
  }

  // ---------------------------------------------------------------------------------------------------------------
  // Theorems

  /** The day after always has the next number. */
  lemma NextDayIsNextNumber(d: Date)
    requires IsDate(d) && InRange(d)
    ensures IsDate(NextDay(d)) && InRange(NextDay(d))
    ensures JulianDay(NextDay(d)) == JulianDay(d) + 1
  {
    NextDayIsNextCount(d);
    JulianDayByParts(d);
    JulianDayByParts(NextDay(d));
  }

  lemma NextDayIsNextCount(d: Date)
    requires IsDate(d) && InRange(d)
    ensures IsDate(NextDay(d)) && InRange(NextDay(d)) && DayCount(NextDay(d)) == DayCount(d) + 1
  {
    MonthLength(d);
  }

  lemma {:induction false} MonthsAreOrdered(m: nat, n: nat)
    requires m < n <= 11
    ensures MonthStart(m + 1) <= MonthStart(n)
    decreases n
  {
    if m + 1 < n {
      MonthsAreOrdered(m, n - 1);
    }
  }

  /** operator< is calendar order, and operator== is equality of dates. */
  lemma NumbersFollowTheCalendar(d: Date, e: Date)
    requires IsDate(d) && InRange(d) && IsDate(e) && InRange(e)
    ensures JulianDay(d) < JulianDay(e) <==> Earlier(d, e)
    ensures JulianDay(d) == JulianDay(e) <==> d == e
  {
    if Earlier(d, e) {
      EarlierIsSmaller(d, e);
    } else if Earlier(e, d) {
      EarlierIsSmaller(e, d);
    }
  }

  lemma EarlierIsSmaller(d: Date, e: Date)
    requires IsDate(d) && InRange(d) && IsDate(e) && InRange(e) && Earlier(d, e)
    ensures JulianDay(d) < JulianDay(e)
  {
    JulianDayByParts(d);
    JulianDayByParts(e);
    EarlierHasSmallerParts(d, e);
  }

  lemma EarlierHasSmallerParts(d: Date, e: Date)
    requires IsDate(d) && InRange(d) && IsDate(e) && InRange(e) && Earlier(d, e)
    ensures DayCount(d) < DayCount(e)
  {
    MonthLength(d);
    PartsAreOrdered(ShiftedYear(d), ShiftedMonth(d), d.day, DaysIn(d.year, d.month),
                    ShiftedYear(e), ShiftedMonth(e), e.day);
  }

  /** The order of shifted dates; `length` is the length of the first one's month. */
  lemma PartsAreOrdered(y: nat, m: nat, day: int, length: int, y': nat, m': nat, day': int)
    requires m <= 11 && m' <= 11 && 1 <= day <= length <= 31 && 1 <= day'
    requires if m < 11 then MonthStart(m + 1) == MonthStart(m) + length
             else YearStart(y + 1) == YearStart(y) + MonthStart(m) + length
    requires y < y' || (y == y' && (m < m' || (m == m' && day < day')))
    ensures YearStart(y) + MonthStart(m) + day < YearStart(y') + MonthStart(m') + day'
  {
    if y < y' {
      YearsAreOrdered(y, y');
      if m < 11 {
        FebruaryIsLast(m, y);
      }
    } else if m < m' {
      MonthsAreOrdered(m, m');
    }
  }

  lemma FebruaryIsLast(m: nat, y: nat)
    requires m < 11
    ensures MonthStart(m + 1) + 28 <= YearStart(y + 1) - YearStart(y)
  {
    YearLength(y);
    if m < 10 {
      MonthsAreOrdered(m, 11);
    }
    assert MonthStart(11) == 337;
  }

  /** The parts computed on the way back. */
  lemma CenturyParts(a: nat) returns (b: nat, c: nat)
    ensures b == (4 * a + 3) / 146097 && c == a - (b * 146097) / 4
    ensures a == 36524 * b + b / 4 + c && 0 <= c <= 36524
    ensures c == 36524 ==> b % 4 == 3
  {
    b := (4 * a + 3) / 146097;
    assert (b * 146097) / 4 == 36524 * b + b / 4;
    c := a - (b * 146097) / 4;
  }

  lemma YearParts(c: nat) returns (d: nat, e: nat)
    requires c <= 36524
    ensures d == (4 * c + 3) / 1461 && e == c - (1461 * d) / 4
    ensures c == 365 * d + d / 4 + e && 0 <= e <= 365 && d <= 99
    ensures e == 365 ==> d % 4 == 3
    ensures d == 99 && e == 365 ==> c == 36524
  {
    d := (4 * c + 3) / 1461;
    assert (1461 * d) / 4 == 365 * d + d / 4;
    e := c - (1461 * d) / 4;
  }

  lemma MonthParts(e: nat) returns (m: nat)
    requires e <= 365
    ensures m == (5 * e + 2) / 153 && m <= 11
    ensures MonthStart(m) <= e && (m < 11 ==> e < MonthStart(m + 1))
  {
    m := (5 * e + 2) / 153;
  }

  lemma YearStartByParts(b: nat, d: nat)
    requires d <= 99
    ensures YearStart(100 * b + d) == 36524 * b + b / 4 + 365 * d + d / 4
  {
    assert (100 * b + d) / 4 == 25 * b + d / 4;
    assert (100 * b + d) / 100 == b;
    assert (100 * b + d) / 400 == b / 4;
  }

  /** Day number to date and back: for every day number from -32044 on, the date is a date of the calendar and has
      that number. */
  lemma NumberRoundTrip(n: int)
    requires n >= -32044
    ensures var date := YearMonthDay(n);
            IsDate(date) && InRange(date) && JulianDay(date) == n
  {
    var b, c := CenturyParts(n + 32044);
    var d, e := YearParts(c);
    var m := MonthParts(e);
    var y := 100 * b + d;
    YearStartByParts(b, d);
    YearMonthDayByParts(n, b, c, d, e, m);
    var date := YearMonthDay(n);
    if e == 365 {
      LastDayIsLeap(b, c, d);
    }
    LeapShift(date.year);
    PartsAreADate(date, m, e, y);
    JulianDayByParts(date);
  }

  lemma YearMonthDayByParts(n: int, b: nat, c: nat, d: nat, e: nat, m: nat)
    requires n >= -32044
    requires b == (4 * (n + 32044) + 3) / 146097 && c == n + 32044 - (b * 146097) / 4
    requires d == (4 * c + 3) / 1461 && e == c - (1461 * d) / 4 && m == (5 * e + 2) / 153 <= 11
    ensures YearMonthDay(n) == Date(100 * b + d - 4800 + (if m < 10 then 0 else 1),
                                    if m < 10 then m + 3 else m + 3 - 12, e - MonthStart(m) + 1)
  {
    assert m / 10 == if m < 10 then 0 else 1;
  }

  lemma LastDayIsLeap(b: nat, c: nat, d: nat)
    requires d <= 99 && d % 4 == 3 && (d == 99 ==> c == 36524) && (c == 36524 ==> b % 4 == 3)
    ensures Leap(100 * b + d + 1)
  {
    assert (100 * b + d + 1) % 4 == (d + 1) % 4;
    if d == 99 {
      assert 100 * b + 100 == 400 * (b / 4 + 1);
    } else {
      assert (100 * b + d + 1) % 100 == d + 1;
    }
  }

  lemma PartsAreADate(date: Date, m: nat, e: nat, y: nat)
    requires m <= 11 && MonthStart(m) <= e <= 365 && (m < 11 ==> e < MonthStart(m + 1))
    requires date == Date(y - 4800 + (if m < 10 then 0 else 1), if m < 10 then m + 3 else m + 3 - 12, e - MonthStart(m) + 1)
    requires (e == 365 ==> Leap(y + 1)) && (m >= 10 ==> (Leap(date.year) <==> Leap(y + 1)))
    ensures IsDate(date) && InRange(date) && ShiftedYear(date) == y && ShiftedMonth(date) == m
  {
    assert m == 0 || m == 1 || m == 2 || m == 3 || m == 4 || m == 5 || m == 6 || m == 7 || m == 8 || m == 9 || m == 10 || m == 11;
  }

  /** Date to day number and back: for every date of the calendar from 1 March -4800 on. */
  lemma DateRoundTrip(d: Date)
    requires IsDate(d) && InRange(d)
    ensures JulianDay(d) >= -32044 && YearMonthDay(JulianDay(d)) == d
  {
    JulianDayByParts(d);
    YearsStartNonNegative(ShiftedYear(d));
    NumberRoundTrip(JulianDay(d));
    NumbersFollowTheCalendar(d, YearMonthDay(JulianDay(d)));
  }

  /** Before the range the parts computed on the way back are all negative, and so is the day. */
  lemma NegativeCentury(a: int) returns (b: int, c: int)
    requires a < 0
    ensures b == Quot(4 * a + 3, 146097) && c == a - Quot(b * 146097, 4)
    ensures c < 0
  {
    b := Quot(4 * a + 3, 146097);
    c := a - Quot(b * 146097, 4);
  }

  lemma NegativeYear(c: int) returns (d: int, e: int)
    requires c < 0
    ensures d == Quot(4 * c + 3, 1461) && e == c - Quot(1461 * d, 4)
    ensures e < 0
  {
    d := Quot(4 * c + 3, 1461);
    e := c - Quot(1461 * d, 4);
  }

  lemma NegativeMonth(e: int) returns (m: int)
    requires e < 0
    ensures m == Quot(5 * e + 2, 153) && e - Quot(153 * m + 2, 5) + 1 <= 0
  {
    m := Quot(5 * e + 2, 153);
  }

  /** A number has a date exactly from -32044 on; below, the day comes out zero or negative. */
  lemma NumberHasADateIff(n: int)
    ensures IsDate(YearMonthDay(n)) <==> n >= -32044
  {
    if n >= -32044 {
      NumberRoundTrip(n);
    } else {
      var b, c := NegativeCentury(n + 32044);
      var d, e := NegativeYear(c);
      var m := NegativeMonth(e);
      assert YearMonthDay(n).day <= 0;
    }
  }

  /** The exact range of the round trip: a date of the calendar comes back from its number exactly from 1 March -4800
      on. */
  lemma DateRoundTripIff(d: Date)
    requires IsDate(d)
    ensures YearMonthDay(JulianDay(d)) == d <==> InRange(d)
  {
    if InRange(d) {
      DateRoundTrip(d);
    } else if JulianDay(d) >= -32044 {
      NumberRoundTrip(JulianDay(d));
    } else {
      NumberHasADateIff(JulianDay(d));
    }
  }

  lemma YearsStartNonNegative(y: nat)
    ensures YearStart(y) >= 0
  {
    assert y / 100 <= y;
  }

  /** kJulianDayOf1970_01_01. */
  lemma UnixEpoch()
    ensures JulianDay(Date(1970, 1, 1)) == 2440588 && YearMonthDay(2440588) == Date(1970, 1, 1)
  {
    var d := Date(1970, 1, 1);
    assert JulianDay(d) == 2440588;
    DateRoundTrip(d);
  }

  /** What goes wrong just before the range: the truncating divisions give two days one number. */
  lemma RangeIsSharp()
    ensures IsDate(Date(-4800, 2, 29)) && NextDay(Date(-4800, 2, 29)) == Date(-4800, 3, 1)
    ensures JulianDay(Date(-4800, 2, 29)) == JulianDay(Date(-4800, 3, 1)) == -32044
  {
  }
}
