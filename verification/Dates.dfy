/** Julian day numbers (muduo/base/Date.cpp: getJulianDayNumber, getYearMonthDay), against a calendar
    that is defined one day at a time. */
module Dates {
  import opened Common

  datatype Date = Date(year: int, month: int, day: int)

  function JulianDayNumber(d: Date): int {
    var a := Div(14 - d.month, 12);
    var y := d.year + 4800 - a;
    var m := d.month + 12 * a - 3;
    d.day + Div(153 * m + 2, 5) + 365 * y + Div(y, 4) - Div(y, 100) + Div(y, 400) - 32045
  }

  function YearMonthDay(julianDayNumber: int): Date {
    var a := julianDayNumber + 32044;
    var b := Div(4 * a + 3, 146097);
    var c := a - Div(b * 146097, 4);
    var d := Div(4 * c + 3, 1461);
    var e := c - Div(1461 * d, 4);
    var m := Div(5 * e + 2, 153);
    Date(b * 100 + d - 4800 + Div(m, 10), m + 3 - 12 * Div(m, 10), e - Div(153 * m + 2, 5) + 1)
  }

  // ---- The calendar ------------------------------------------------------------------------------------------

  predicate IsLeap(year: int) {
    year % 4 == 0 && (year % 100 != 0 || year % 400 == 0)
  }

  function DaysInMonth(year: int, month: int): int {
    if month == 2 then (if IsLeap(year) then 29 else 28)
    else if month in {4, 6, 9, 11} then 30
    else 31
  }

  predicate Valid(d: Date) {
    1 <= d.month <= 12 && 1 <= d.day <= DaysInMonth(d.year, d.month)
  }

  function NextDay(d: Date): Date {
    if d.day < DaysInMonth(d.year, d.month) then d.(day := d.day + 1)
    else if d.month < 12 then Date(d.year, d.month + 1, 1)
    else Date(d.year + 1, 1, 1)
  }

  predicate Earlier(d: Date, d': Date) {
    d.year < d'.year || (d.year == d'.year && (d.month < d'.month || (d.month == d'.month && d.day < d'.day)))
  }

  /** From 1 March of the year -4800 on. */
  predicate InRange(d: Date) {
    d.year > -4800 || (d.year == -4800 && d.month >= 3)
  }

  // ---- Years from March ----------------------------------------------------------------------------------------

  /** Days before the years, and before the months, of a year that starts in March. */
  function YearStart(y: nat): int { 365 * y + y / 4 - y / 100 + y / 400 }

  function MonthStart(m: int): int { (153 * m + 2) / 5 }

  function CenturyStart(b: nat): int { 36524 * b + b / 4 }

  function QuadStart(r: nat): int { 365 * r + r / 4 }

  function YearLength(y: nat): int { if IsLeap(y + 1) then 366 else 365 }

  lemma YearStartSplits(b: nat, r: nat)
    requires r < 100
    ensures YearStart(100 * b + r) == CenturyStart(b) + QuadStart(r)
  {
    var y := 100 * b + r;
    assert y / 100 == b;
    assert y / 400 == b / 4;
    assert y / 4 == 25 * b + r / 4;
  }

  lemma NextYearStart(y: nat)
    ensures YearStart(y + 1) == YearStart(y) + YearLength(y)
  {
    NextQuad(y);
    NextCentury(y);
    NextFourth(y);
    Nested(y + 1);
  }

  lemma NextQuad(y: nat)
    ensures (y + 1) / 4 == y / 4 + if (y + 1) % 4 == 0 then 1 else 0
  {
  }

  lemma NextCentury(y: nat)
    ensures (y + 1) / 100 == y / 100 + if (y + 1) % 100 == 0 then 1 else 0
  {
  }

  lemma NextFourth(y: nat)
    ensures (y + 1) / 400 == y / 400 + if (y + 1) % 400 == 0 then 1 else 0
  {
  }

  lemma Nested(y: nat)
    ensures y % 400 == 0 ==> y % 100 == 0
    ensures y % 100 == 0 ==> y % 4 == 0
  {
    if y % 400 == 0 { assert y == 100 * (4 * (y / 400)); }
    if y % 100 == 0 { assert y == 4 * (25 * (y / 100)); }
  }

  lemma {:induction false} YearStartGrows(y: nat, y': nat)
    requires y < y'
    ensures YearStart(y) + YearLength(y) <= YearStart(y')
    decreases y' - y
  {
    hide YearStart;
    NextYearStart(y);
    if y + 1 < y' { YearStartGrows(y + 1, y'); }
  }

  /** The divisors find the century, the year in it and the month that hold a day. */
  lemma FindCentury(b: nat, a: int)
    requires CenturyStart(b) <= a < CenturyStart(b + 1)
    ensures (4 * a + 3) / 146097 == b && b * 146097 / 4 == CenturyStart(b)
  {
  }

  lemma FindYear(r: nat, c: int)
    requires QuadStart(r) <= c < QuadStart(r + 1)
    ensures (4 * c + 3) / 1461 == r && 1461 * r / 4 == QuadStart(r)
  {
  }

  lemma FindMonth(m: int, e: int)
    requires 0 <= m <= 11 && MonthStart(m) <= e < MonthStart(m + 1)
    ensures (5 * e + 2) / 153 == m
  {
  }

  function ShiftedYear(d: Date): int { d.year + 4800 - if d.month <= 2 then 1 else 0 }

  function ShiftedMonth(d: Date): int { if d.month <= 2 then d.month + 9 else d.month - 3 }

  function DayOfYear(d: Date): int { MonthStart(ShiftedMonth(d)) + d.day - 1 }

  lemma ShiftedNumber(d: Date)
    requires Valid(d) && InRange(d)
    ensures 0 <= ShiftedYear(d) && 0 <= ShiftedMonth(d) <= 11
    ensures JulianDayNumber(d) + 32044 == YearStart(ShiftedYear(d)) + DayOfYear(d)
  {
    hide DaysInMonth, IsLeap;
    assert Div(14 - d.month, 12) == if d.month <= 2 then 1 else 0;
  }

  lemma ShiftedDay(d: Date)
    requires Valid(d) && InRange(d)
    ensures MonthStart(ShiftedMonth(d)) <= DayOfYear(d) < MonthStart(ShiftedMonth(d) + 1)
    ensures 0 <= DayOfYear(d) < YearLength(ShiftedYear(d))
  {
    LeapShift(d.year);
    hide IsLeap;
  }

  lemma Shifted(d: Date)
    requires Valid(d) && InRange(d)
    ensures 0 <= ShiftedYear(d) && 0 <= ShiftedMonth(d) <= 11
    ensures JulianDayNumber(d) + 32044 == YearStart(ShiftedYear(d)) + DayOfYear(d)
    ensures MonthStart(ShiftedMonth(d)) <= DayOfYear(d) < MonthStart(ShiftedMonth(d) + 1)
    ensures 0 <= DayOfYear(d) < YearLength(ShiftedYear(d))
  {
    ShiftedNumber(d);
    ShiftedDay(d);
    hide *;
  }

  lemma YearInQuad(r: nat, b: nat, e: int)
    requires r < 100 && 0 <= e < YearLength(100 * b + r)
    ensures QuadStart(r) + e < QuadStart(r + 1)
  {
    if e == 365 {
      var k := (100 * b + r + 1) / 4;
      assert r + 1 == 4 * (k - 25 * b);
    }
  }

  lemma YearInCentury(r: nat, b: nat, e: int)
    requires r < 100 && 0 <= e < YearLength(100 * b + r)
    ensures CenturyStart(b) + QuadStart(r) + e < CenturyStart(b + 1)
  {
    assert e <= 365 && CenturyStart(b) + 36524 <= CenturyStart(b + 1);
    if r == 99 {
      LastYear(b);
      hide YearLength;
    } else {
      assert QuadStart(r) <= 365 * 98 + 24;
      hide YearLength, QuadStart, CenturyStart;
    }
  }

  /** The last year of a century is long exactly if the century is. */
  lemma LastYear(b: nat)
    ensures CenturyStart(b + 1) == CenturyStart(b) + QuadStart(99) + YearLength(100 * b + 99)
  {
    var k := (b + 1) / 4;
    if (b + 1) % 4 == 0 {
      assert 100 * b + 100 == 400 * k;
    } else {
      assert 100 * b + 100 == 400 * k + 100 * ((b + 1) % 4);
    }
  }

  /** A year of a century, and a day of the year, found from the day number. */
  lemma FindDay(y: nat, e: int)
    requires 0 <= e < YearLength(y)
    ensures var a := YearStart(y) + e; var b, r := y / 100, y % 100;
      && (4 * a + 3) / 146097 == b && b * 146097 / 4 == CenturyStart(b)
      && (4 * (a - CenturyStart(b)) + 3) / 1461 == r && 1461 * r / 4 == QuadStart(r)
      && a - CenturyStart(b) - QuadStart(r) == e && a >= 0 && a >= CenturyStart(b)
  {
    var b, r := y / 100, y % 100;
    assert y == 100 * b + r;
    YearStartSplits(b, r);
    YearInQuad(r, b, e);
    YearInCentury(r, b, e);
    FindYear(r, QuadStart(r) + e);
    assert QuadStart(r) >= 0 && CenturyStart(b) >= 0;
    hide YearStart, YearLength, CenturyStart, QuadStart;
    FindCentury(b, CenturyStart(b) + QuadStart(r) + e);
  }

  // ---- The theorems --------------------------------------------------------------------------------------------

  /** Converting a date to its number and back gives the date. */
  lemma DateRoundTrip(d: Date)
    requires Valid(d) && InRange(d)
    ensures JulianDayNumber(d) >= -32044 && YearMonthDay(JulianDayNumber(d)) == d
  {
    hide YearStart, CenturyStart, QuadStart, JulianDayNumber, YearMonthDay, MonthStart, YearLength, DaysInMonth,
      DayOfYear, ShiftedMonth, ShiftedYear;
    Shifted(d);
    var y, m, e := ShiftedYear(d), ShiftedMonth(d), DayOfYear(d);
    FindDay(y, e);
    FindMonth(m, e);
    FromParts(JulianDayNumber(d), y / 100, y % 100, m, e);
    PartsOf(d);
    hide *;
    assert y / 100 * 100 + y % 100 == y;
  }

  lemma PartsOf(d: Date)
    requires Valid(d)
    ensures var m := ShiftedMonth(d);
      d == Date(ShiftedYear(d) - 4800 + m / 10, m + 3 - 12 * (m / 10), DayOfYear(d) - MonthStart(m) + 1)
  {
  }

  lemma FromParts(n: int, b: nat, r: nat, m: nat, e: nat)
    requires var a := n + 32044; var c := a - CenturyStart(b);
      && (4 * a + 3) / 146097 == b && b * 146097 / 4 == CenturyStart(b) && a >= 0
      && (4 * c + 3) / 1461 == r && 1461 * r / 4 == QuadStart(r) && c >= 0
      && c - QuadStart(r) == e
    requires (5 * e + 2) / 153 == m
    ensures YearMonthDay(n) == Date(b * 100 + r - 4800 + m / 10, m + 3 - 12 * (m / 10), e - MonthStart(m) + 1)
  {
    hide CenturyStart, QuadStart;
    var a := n + 32044;
    assert Div(4 * a + 3, 146097) == b && Div(b * 146097, 4) == CenturyStart(b);
    var c := a - CenturyStart(b);
    assert Div(4 * c + 3, 1461) == r && Div(1461 * r, 4) == QuadStart(r);
    assert Div(5 * e + 2, 153) == m && Div(153 * m + 2, 5) == MonthStart(m) && Div(m, 10) == m / 10;
    hide Div, MonthStart;
  }

  lemma {:induction false} YearOf(a: nat, y: nat) returns (y': nat)
    requires YearStart(y) <= a
    ensures YearStart(y') <= a < YearStart(y') + YearLength(y')
    decreases a - YearStart(y)
  {
    NextYearStart(y);
    if a < YearStart(y + 1) { y' := y; } else { y' := YearOf(a, y + 1); }
  }

  lemma {:induction false} MonthOf(e: nat, m: nat) returns (m': nat)
    requires m <= 11 && MonthStart(m) <= e < 366
    ensures m' <= 11 && MonthStart(m') <= e < MonthStart(m' + 1)
    decreases 11 - m
  {
    if m == 11 || e < MonthStart(m + 1) { m' := m; } else { m' := MonthOf(e, m + 1); }
  }

  /** Converting a number to a date and back gives the number, and the date is one of the calendar. */
  lemma NumberRoundTrip(n: int)
    requires n >= -32044
    ensures Valid(YearMonthDay(n)) && InRange(YearMonthDay(n)) && JulianDayNumber(YearMonthDay(n)) == n
  {
    var a := n + 32044;
    var y: int := YearOf(a, 0);
    var e := a - YearStart(y);
    var m: int := MonthOf(e, 0);
    var over: int := if m >= 10 then 1 else 0;
    var d := Date(y - 4800 + over, m + 3 - 12 * over, e - MonthStart(m) + 1);
    PartsAreValid(y, m, e, d);
    Shifted(d);
    DateRoundTrip(d);
    hide *;
  }

  lemma PartsAreValid(y: nat, m: nat, e: int, d: Date)
    requires m <= 11 && MonthStart(m) <= e < MonthStart(m + 1) && e < YearLength(y)
    requires var over := if m >= 10 then 1 else 0; d == Date(y - 4800 + over, m + 3 - 12 * over, e - MonthStart(m) + 1)
    ensures Valid(d) && InRange(d) && ShiftedYear(d) == y && ShiftedMonth(d) == m && DayOfYear(d) == e
  {
    LeapShift(d.year);
    hide IsLeap;
  }

  /** The number grows by one each calendar day. */
  lemma NextDayIsNextNumber(d: Date)
    requires Valid(d) && InRange(d)
    ensures Valid(NextDay(d)) && InRange(NextDay(d)) && JulianDayNumber(NextDay(d)) == JulianDayNumber(d) + 1
  {
    Shifted(d);
    NextYearStart(ShiftedYear(d));
    NextShifted(d);
    Shifted(NextDay(d));
    hide JulianDayNumber, YearStart, YearLength, DayOfYear, NextDay, ShiftedYear;
  }

  /** The next day is in the same year from March, or the first of the next one. */
  lemma NextShifted(d: Date)
    requires Valid(d) && InRange(d)
    ensures Valid(NextDay(d)) && InRange(NextDay(d))
    ensures var y, e := ShiftedYear(d), DayOfYear(d);
      if e + 1 < YearLength(y) then ShiftedYear(NextDay(d)) == y && DayOfYear(NextDay(d)) == e + 1
      else ShiftedYear(NextDay(d)) == y + 1 && DayOfYear(NextDay(d)) == 0 && e + 1 == YearLength(y)
  {
    LeapShift(d.year);
  }

  lemma LeapShift(year: int)
    requires year >= -4800
    ensures IsLeap(year + 4800) == IsLeap(year)
  {
    SameRemainder(year, 1200, 4);
    SameRemainder(year, 48, 100);
    SameRemainder(year, 12, 400);
  }

  lemma SameRemainder(x: int, k: int, n: int)
    requires n > 0
    ensures (x + k * n) % n == x % n
  {
    var d := (x + k * n) / n - x / n - k;
    assert n * d == x % n - (x + k * n) % n;
    assert d >= 1 ==> n * d >= n;
    assert d <= -1 ==> n * d <= -n;
  }

  /** The calendar by counting: `k` days after 1 March -4800. */
  function DaysAfter(k: nat): Date {
    if k == 0 then Date(-4800, 3, 1) else NextDay(DaysAfter(k - 1))
  }

  /** The closed formulas are this count and its inverse. */
  lemma {:induction false} CountsDays(k: nat)
    ensures YearMonthDay(k - 32044) == DaysAfter(k) && JulianDayNumber(DaysAfter(k)) == k - 32044
  {
    hide YearMonthDay, JulianDayNumber, NextDay, Valid, InRange;
    if k == 0 {
      FirstDay();
    } else {
      CountsDays(k - 1);
      NumberRoundTrip(k - 1 - 32044);
      NextDayIsNextNumber(DaysAfter(k - 1));
      DateRoundTrip(DaysAfter(k));
    }
  }

  lemma FirstDay()
    ensures YearMonthDay(-32044) == Date(-4800, 3, 1) && JulianDayNumber(Date(-4800, 3, 1)) == -32044
  {
    hide YearMonthDay;
    assert Div(14 - 3, 12) == 0 && Div(153 * 0 + 2, 5) == 0 && Div(0, 4) == 0 && Div(0, 100) == 0 && Div(0, 400) == 0;
    DateRoundTrip(Date(-4800, 3, 1));
  }

  /** Numbers are ordered as dates are. */
  lemma SameOrder(d: Date, d': Date)
    requires Valid(d) && InRange(d) && Valid(d') && InRange(d')
    ensures Earlier(d, d') <==> JulianDayNumber(d) < JulianDayNumber(d')
  {
    if Earlier(d, d') { EarlierIsLess(d, d'); }
    if Earlier(d', d) { EarlierIsLess(d', d); }
  }

  lemma EarlierIsLess(d: Date, d': Date)
    requires Valid(d) && InRange(d) && Valid(d') && InRange(d') && Earlier(d, d')
    ensures JulianDayNumber(d) < JulianDayNumber(d')
  {
    Shifted(d);
    Shifted(d');
    if ShiftedYear(d) < ShiftedYear(d') {
      YearStartGrows(ShiftedYear(d), ShiftedYear(d'));
    }
  }

  // ---- 32 bits ---------------------------------------------------------------------------------------------------

  predicate IsInt32(x: int) { -0x8000_0000 <= x <= 0x7fff_ffff }

  /** Every intermediate result of getYearMonthDay fits an int. */
  predicate FitsInt32(n: int) {
    var a := n + 32044;
    var b := Div(4 * a + 3, 146097);
    var c := a - Div(b * 146097, 4);
    var d := Div(4 * c + 3, 1461);
    var e := c - Div(1461 * d, 4);
    var m := Div(5 * e + 2, 153);
    && IsInt32(a) && IsInt32(4 * a) && IsInt32(4 * a + 3) && IsInt32(b * 146097) && IsInt32(c)
    && IsInt32(4 * c + 3) && IsInt32(1461 * d) && IsInt32(5 * e + 2) && IsInt32(153 * m + 2) && IsInt32(b * 100 + d)
  }

  const LAST_NUMBER: int := 536838867

  /** It never overflows exactly up to this number. */
  lemma OverflowsExactly(n: int)
    requires n >= -32044
    ensures FitsInt32(n) <==> n <= LAST_NUMBER
  {
    var a := n + 32044;
    var y := YearOf(a, 0);
    FindDay(y, a - YearStart(y));
    YearMonthBounds(y, a - YearStart(y));
  }

  lemma YearMonthBounds(y: nat, e: int)
    requires 0 <= e < YearLength(y)
    ensures 0 <= y / 100 && y / 100 * 146097 <= 4 * (YearStart(y) + e) + 3 && y % 100 < 100
        && 365 * y <= YearStart(y) + y / 100
  {
    FindDay(y, e);
  }

  /** The next number does. */
  lemma FirstOverflow()
    ensures !FitsInt32(LAST_NUMBER + 1) && FitsInt32(LAST_NUMBER)
  {
    OverflowsExactly(LAST_NUMBER + 1);
    OverflowsExactly(LAST_NUMBER);
  }

  /** Every intermediate result of getJulianDayNumber fits an int. */
  predicate JulianFitsInt32(d: Date) {
    var a := Div(14 - d.month, 12);
    var y := d.year + 4800 - a;
    var m := d.month + 12 * a - 3;
    var days := d.day + Div(153 * m + 2, 5);
    && IsInt32(14 - d.month) && IsInt32(d.year + 4800) && IsInt32(y) && IsInt32(12 * a) && IsInt32(d.month + 12 * a)
    && IsInt32(m)
    && IsInt32(153 * m) && IsInt32(153 * m + 2) && IsInt32(days) && IsInt32(365 * y) && IsInt32(days + 365 * y)
    && IsInt32(days + 365 * y + Div(y, 4)) && IsInt32(days + 365 * y + Div(y, 4) - Div(y, 100))
    && IsInt32(days + 365 * y + Div(y, 4) - Div(y, 100) + Div(y, 400)) && IsInt32(JulianDayNumber(d))
  }

  /** And getJulianDayNumber does not overflow on the dates of these numbers. */
  lemma DatesFit(d: Date)
    requires Valid(d) && InRange(d) && JulianDayNumber(d) <= LAST_NUMBER
    ensures JulianFitsInt32(d)
  {
    Shifted(d);
    YearMonthBounds(ShiftedYear(d), DayOfYear(d));
    DateRoundTrip(d);
    assert ShiftedYear(d) <= 1480000;
    hide YearMonthDay, YearStart, YearLength, IsLeap, DayOfYear;
    SmallYearFits(d);
  }

  lemma SmallYearFits(d: Date)
    requires 1 <= d.month <= 12 && 1 <= d.day <= 31 && 0 <= ShiftedYear(d) <= 1480000
    requires -32044 <= JulianDayNumber(d) <= LAST_NUMBER
    ensures JulianFitsInt32(d)
  {
    var y, a := ShiftedYear(d), if d.month <= 2 then 1 else 0;
    assert Div(14 - d.month, 12) == a && y == d.year + 4800 - a;
    var m := d.month + 12 * a - 3;
    assert 0 <= Div(153 * m + 2, 5) <= 400;
    assert 0 <= Div(y, 4) <= 370000 && 0 <= Div(y, 100) <= 14800 && 0 <= Div(y, 400) <= 3700;
    hide Div, JulianDayNumber;
  }

  /** Date::kJulianDayOf1970_01_01, and weekDay of that Thursday. */
  lemma Epoch()
    ensures JulianDayNumber(Date(1970, 1, 1)) == 2440588 && (2440588 + 1) % 7 == 4
  {
  }
}
