/** networker/base/Date.cpp: day numbers and calendar dates.

    C++ division and remainder truncate toward zero; `Quot` and `Rem` are those. The
    reference is the proleptic Gregorian calendar, with its leap-year rule and month lengths. */
module Dates {

  function Quot(a: int, b: int): int
    requires b > 0
  {
    if a >= 0 then a / b else -(-a / b)
  }

  function Rem(a: int, b: int): int
    requires b > 0
  {
    if a >= 0 then a % b else -(-a % b)
  }

  datatype YearMonthDay = YearMonthDay(year: int, month: int, day: int)

  function GetJulianDayNumber(year: int, month: int, day: int): int {
    var a := Quot(14 - month, 12);
    var y := year + 4800 - a;
    var m := month + 12 * a - 3;
    day + Quot(153 * m + 2, 5) + y * 365 + Quot(y, 4) - Quot(y, 100) + Quot(y, 400) - 32045
  }

  function GetYearMonthDay(julianDayNumber: int): YearMonthDay {
    var a := julianDayNumber + 32044;
    var b := Quot(4 * a + 3, 146097);
    InCentury(b, a - Quot(b * 146097, 4))
  }

  function InCentury(b: int, c: int): YearMonthDay {
    var d := Quot(4 * c + 3, 1461);
    InYear(b * 100 + d, c - Quot(1461 * d, 4))
  }

  function InYear(y: int, e: int): YearMonthDay {
    var m := Quot(5 * e + 2, 153);
    YearMonthDay(y - 4800 + Quot(m, 10), m + 3 - 12 * Quot(m, 10), e - Quot(153 * m + 2, 5) + 1)
  }

  function Number(d: YearMonthDay): int {
    GetJulianDayNumber(d.year, d.month, d.day)
  }

  // ---------------------------------------------------------------- the calendar

  predicate Leap(year: int) {
    year % 4 == 0 && (year % 100 != 0 || year % 400 == 0)
  }

  function DaysIn(year: int, month: int): int {
    if month == 2 then if Leap(year) then 29 else 28
    else if month in {4, 6, 9, 11} then 30 else 31
  }

  predicate Valid(d: YearMonthDay) {
    1 <= d.month <= 12 && 1 <= d.day <= DaysIn(d.year, d.month)
  }

  /** From the first of March of -4800 on. */
  predicate InRange(d: YearMonthDay) {
    d.year > -4800 || (d.year == -4800 && d.month >= 3)
  }

  function NextDay(d: YearMonthDay): YearMonthDay {
    if d.day < DaysIn(d.year, d.month) then d.(day := d.day + 1)
    else if d.month < 12 then YearMonthDay(d.year, d.month + 1, 1)
    else YearMonthDay(d.year + 1, 1, 1)
  }

  // ---------------------------------------------------------------- counting from March

  /** Days before March-year y; before month m of it; and before century b. */
  function YearStart(y: nat): nat { 365 * y + y / 4 - y / 100 + y / 400 }

  function MonthStart(m: nat): nat { (153 * m + 2) / 5 }

  function CenturyStart(b: nat): nat { 146097 * b / 4 }

  /** Days before year d of a century whose years all follow the four-year rule. */
  function FourStart(d: nat): nat { 1461 * d / 4 }

  /** The year and the month counted from March: January and February belong to the year
      before. */
  function MarchYear(d: YearMonthDay): int { d.year + 4800 - if d.month <= 2 then 1 else 0 }

  function MarchMonth(d: YearMonthDay): int { d.month + if d.month <= 2 then 9 else -3 }

  lemma NumberByMarch(d: YearMonthDay)
    requires Valid(d) && InRange(d)
    ensures MarchYear(d) >= 0 && 0 <= MarchMonth(d) <= 11
    ensures Number(d) == YearStart(MarchYear(d)) + MonthStart(MarchMonth(d)) + d.day - 32045
  {
    assert (14 - d.month) / 12 == if d.month <= 2 then 1 else 0;
  }

  /** A century of the code: 100 March-years. */
  lemma YearStartSplit(b: nat, d: nat)
    requires d < 100
    ensures YearStart(100 * b + d) == CenturyStart(b) + FourStart(d)
  {
    var y := 100 * b + d;
    assert y / 4 == 25 * b + d / 4;
    assert y / 100 == b;
    assert y / 400 == b / 4;
  }

  /** Dividing 4x + 3 finds the block that x is in. */
  lemma CenturyOf(x: int, b: nat)
    requires CenturyStart(b) <= x < CenturyStart(b + 1)
    ensures Quot(4 * x + 3, 146097) == b && Quot(b * 146097, 4) == CenturyStart(b)
  {
  }

  lemma FourOf(x: int, d: nat)
    requires FourStart(d) <= x < FourStart(d + 1)
    ensures Quot(4 * x + 3, 1461) == d && Quot(1461 * d, 4) == FourStart(d)
  {
  }

  lemma MonthOf(e: int, m: int)
    requires 0 <= m && MonthStart(m) <= e < MonthStart(m + 1)
    ensures Quot(5 * e + 2, 153) == m && Quot(153 * m + 2, 5) == MonthStart(m)
  {
  }

  lemma YearLength(y: nat)
    ensures YearStart(y + 1) == YearStart(y) + if Leap(y - 4799) then 366 else 365
  {
    LeapShift(y - 4799);
    assert (y + 1) / 4 == y / 4 + if (y + 1) % 4 == 0 then 1 else 0;
    assert (y + 1) / 100 == y / 100 + if (y + 1) % 100 == 0 then 1 else 0;
    assert (y + 1) / 400 == y / 400 + if (y + 1) % 400 == 0 then 1 else 0;
    assert (y + 1) % 100 == 0 ==> (y + 1) % 4 == 0;
  }

  /** The calendar repeats every 400 years. */
  lemma LeapShift(year: int)
    ensures Leap(year + 4800) == Leap(year)
  {
    Shift(year, 4);
    Shift(year, 100);
    Shift(year, 400);
  }

  lemma Shift(year: int, n: int)
    requires n == 4 || n == 100 || n == 400
    ensures (year + 4800) % n == year % n
  {
  }

  lemma MonthLengths(d: YearMonthDay)
    requires Valid(d)
    ensures d.month != 2 ==> MonthStart(MarchMonth(d) + 1) - MonthStart(MarchMonth(d)) == DaysIn(d.year, d.month)
    ensures d.month == 2 ==> MarchMonth(d) == 11
    ensures MonthStart(0) == 0 && MonthStart(11) == 337 && MonthStart(12) > 366
    ensures MarchMonth(d) < 11 ==> MonthStart(MarchMonth(d) + 1) <= 337
  {
  }

  /** Within its March-year, month by month, a valid date is where the month lengths put it. */
  lemma DayOfMarchYear(d: YearMonthDay)
    requires Valid(d) && InRange(d)
    ensures var m, e := MarchMonth(d), MonthStart(MarchMonth(d)) + d.day - 1;
            && MonthStart(m) <= e < MonthStart(m + 1)
            && e < YearStart(MarchYear(d) + 1) - YearStart(MarchYear(d))
  {
    MonthLengths(d);
    YearLength(MarchYear(d));
    LeapShift(d.year);
  }

  /** Where a March-year is in its century. */
  lemma YearInCentury(y: nat)
    ensures var b, d := y / 100, y % 100;
            && YearStart(y) == CenturyStart(b) + FourStart(d)
            && YearStart(y + 1) <= CenturyStart(b) + FourStart(d + 1)
            && YearStart(y + 1) <= CenturyStart(b + 1)
  {
    var b, d := y / 100, y % 100;
    YearStartSplit(b, d);
    if d < 99 {
      YearStartSplit(b, d + 1);
    } else {
      YearStartSplit(b + 1, 0);
    }
  }

  function Late(m: nat): int { if m >= 10 then 1 else 0 }

  /** What getYearMonthDay computes, block by block. */
  lemma GetIs(j: int, b: nat, d: nat)
    requires j >= -32044 && CenturyStart(b) <= j + 32044 < CenturyStart(b + 1)
    requires FourStart(d) <= j + 32044 - CenturyStart(b) < FourStart(d + 1)
    ensures GetYearMonthDay(j) == InYear(100 * b + d, j + 32044 - CenturyStart(b) - FourStart(d))
  {
    CenturyOf(j + 32044, b);
    FourOf(j + 32044 - CenturyStart(b), d);
  }

  lemma InYearIs(y: nat, e: int, m: nat)
    requires m <= 11 && MonthStart(m) <= e < MonthStart(m + 1)
    ensures InYear(y, e) == YearMonthDay(y - 4800 + Late(m), m + 3 - 12 * Late(m), e - MonthStart(m) + 1)
  {
    MonthOf(e, m);
  }

  lemma GetByYear(j: int, y: nat, e: int)
    requires 0 <= e < YearStart(y + 1) - YearStart(y) && j == YearStart(y) + e - 32044
    ensures GetYearMonthDay(j) == InYear(y, e)
  {
    YearInCentury(y);
    GetIs(j, y / 100, y % 100);
  }

  lemma GetOfMarch(j: int, y: nat, m: nat, e: int)
    requires m <= 11 && MonthStart(m) <= e < MonthStart(m + 1) && e < YearStart(y + 1) - YearStart(y)
    requires j == YearStart(y) + e - 32044
    ensures GetYearMonthDay(j)
            == YearMonthDay(y - 4800 + Late(m), m + 3 - 12 * Late(m), e - MonthStart(m) + 1)
  {
    GetByYear(j, y, e);
    InYearIs(y, e, m);
  }

  lemma DateAt(d: YearMonthDay, n: int)
    requires Valid(d) && InRange(d)
    requires MarchYear(d) >= 0 && MarchMonth(d) >= 0
    requires n == YearStart(MarchYear(d)) + MonthStart(MarchMonth(d)) + d.day - 32045
    ensures GetYearMonthDay(n) == d
  {
    DayOfMarchYear(d);
    MarchNames(d);
    GetOfMarch(n, MarchYear(d), MarchMonth(d), MonthStart(MarchMonth(d)) + d.day - 1);
  }

  lemma MarchNames(d: YearMonthDay)
    requires 1 <= d.month <= 12
    ensures 0 <= MarchMonth(d) <= 11
    ensures MarchYear(d) - 4800 + Late(MarchMonth(d)) == d.year
    ensures MarchMonth(d) + 3 - 12 * Late(MarchMonth(d)) == d.month
  {
  }

  /** getYearMonthDay undoes getJulianDayNumber on every date of the calendar. */
  lemma DateRoundTrip(d: YearMonthDay)
    requires Valid(d) && InRange(d)
    ensures Number(d) >= -32044 && GetYearMonthDay(Number(d)) == d
  {
    NumberByMarch(d);
    DateAt(d, Number(d));
  }

  // ---------------------------------------------------------------- and back

  lemma InBlock(x: int, n: int)
    requires (n == 146097 || n == 1461) && x >= 0
    ensures var k := (4 * x + 3) / n; k >= 0 && n * k / 4 <= x < n * (k + 1) / 4
  {
  }

  lemma InMonth(e: int)
    requires 0 <= e <= 365
    ensures var m := (5 * e + 2) / 153; 0 <= m <= 11 && MonthStart(m) <= e < MonthStart(m + 1)
  {
  }

  /** The century, the year in it and the month that the code computes. */
  lemma MarchParts(j: int) returns (b: nat, d: nat, m: nat)
    requires j >= -32044
    ensures CenturyStart(b) <= j + 32044 < CenturyStart(b + 1)
    ensures d <= 99 && FourStart(d) <= j + 32044 - CenturyStart(b) < FourStart(d + 1)
    ensures var e := j + 32044 - CenturyStart(b) - FourStart(d);
            m <= 11 && MonthStart(m) <= e < MonthStart(m + 1) && e < YearStart(100 * b + d + 1) - YearStart(100 * b + d)
    ensures YearStart(100 * b + d) == CenturyStart(b) + FourStart(d)
  {
    var a := j + 32044;
    InBlock(a, 146097);
    b := (4 * a + 3) / 146097;
    var c := a - CenturyStart(b);
    InBlock(c, 1461);
    d := (4 * c + 3) / 1461;
    YearStartSplit(b, d);
    if d < 99 {
      YearStartSplit(b, d + 1);
    } else {
      YearStartSplit(b + 1, 0);
    }
    InMonth(c - FourStart(d));
    m := (5 * (c - FourStart(d)) + 2) / 153;
  }

  /** From -4800-03-01 on, every number is the number of a date, the one that getYearMonthDay
      gives. */
  lemma NumberRoundTrip(j: int)
    requires j >= -32044
    ensures var d := GetYearMonthDay(j); Valid(d) && InRange(d) && Number(d) == j
  {
    var y, m, e := GetByMarch(j);
    InYearIs(y, e, m);
    ValidFromMarch(y, m, e);
    NumberByMarch(GetYearMonthDay(j));
  }

  /** The date that getYearMonthDay gives, counted from March. */
  lemma GetByMarch(j: int) returns (y: nat, m: nat, e: int)
    requires j >= -32044
    ensures m <= 11 && MonthStart(m) <= e < MonthStart(m + 1) && e < YearStart(y + 1) - YearStart(y)
    ensures j + 32044 == YearStart(y) + e
    ensures GetYearMonthDay(j) == InYear(y, e)
  {
    var b, d;
    b, d, m := MarchParts(j);
    y := 100 * b + d;
    e := j + 32044 - CenturyStart(b) - FourStart(d);
    GetByYear(j, y, e);
  }

  lemma ValidFromMarch(y: nat, m: nat, e: int)
    requires m <= 11 && MonthStart(m) <= e < MonthStart(m + 1) && e < YearStart(y + 1) - YearStart(y)
    ensures var d := YearMonthDay(y - 4800 + Late(m), m + 3 - 12 * Late(m), e - MonthStart(m) + 1);
            Valid(d) && InRange(d) && MarchYear(d) == y && MarchMonth(d) == m
  {
    YearLength(y);
  }

  /** Before that day no number gives a date. */
  lemma NoDateBefore(j: int)
    ensures Valid(GetYearMonthDay(j)) <==> j >= -32044
  {
    if j >= -32044 {
      NumberRoundTrip(j);
    } else {
      var a := j + 32044;
      var b := Quot(4 * a + 3, 146097);
      var c := a - Quot(b * 146097, 4);
      assert c < 0;
      var d := Quot(4 * c + 3, 1461);
      var e := c - Quot(1461 * d, 4);
      assert e < 0;
      assert e - Quot(153 * Quot(5 * e + 2, 153) + 2, 5) < 0;
    }
  }

  /** Consecutive dates have consecutive numbers. */
  lemma NextNumber(d: YearMonthDay)
    requires Valid(d) && InRange(d)
    ensures Valid(NextDay(d)) && InRange(NextDay(d)) && Number(NextDay(d)) == Number(d) + 1
  {
    var d' := NextDay(d);
    NumberByMarch(d);
    NumberByMarch(d');
    YearLength(MarchYear(d));
    MonthLengths(d);
    assert d'.day > 1 ==> MarchYear(d') == MarchYear(d) && MarchMonth(d') == MarchMonth(d);
    assert d'.day == 1 && d.month != 2 ==> MarchYear(d') == MarchYear(d) && MarchMonth(d') == MarchMonth(d) + 1;
    assert d'.day == 1 && d.month == 2 ==> MarchYear(d') == MarchYear(d) + 1 && MarchMonth(d') == 0;
  }

  /** The n-th day after the first of March of -4800, counted by the calendar alone. */
  function DayAfter(n: nat): YearMonthDay {
    if n == 0 then YearMonthDay(-4800, 3, 1) else NextDay(DayAfter(n - 1))
  }

  lemma FirstDay()
    ensures var d := YearMonthDay(-4800, 3, 1); Valid(d) && InRange(d) && Number(d) == -32044
  {
  }

  lemma {:induction false} CountedNumber(n: nat)
    ensures Valid(DayAfter(n)) && InRange(DayAfter(n)) && Number(DayAfter(n)) == n - 32044
  {
    if n == 0 {
      FirstDay();
    } else {
      CountedNumber(n - 1);
      NextNumber(DayAfter(n - 1));
    }
  }

  /** Both functions count days: the n-th day has the number n - 32044, and that number gives
      back the n-th day. */
  lemma NumbersCountDays(n: nat)
    ensures Number(DayAfter(n)) == n - 32044 && GetYearMonthDay(n - 32044) == DayAfter(n)
  {
    CountedNumber(n);
    DateRoundTrip(DayAfter(n));
  }

  /** int is 32 bits. Nothing that getYearMonthDay computes overflows exactly in this range; it
      is the first product, 4 * a, that leaves it first, at either end. */
  lemma NoOverflow(j: int)
    ensures var a := j + 32044;
            var b := Quot(4 * a + 3, 146097);
            var c := a - Quot(b * 146097, 4);
            var d := Quot(4 * c + 3, 1461);
            var e := c - Quot(1461 * d, 4);
            Int32(a) && Int32(4 * a) && Int32(4 * a + 3) && Int32(b * 146097) && Int32(4 * c + 3) && Int32(1461 * d)
            && Int32(5 * e + 2) && Int32(153 * Quot(5 * e + 2, 153) + 2) && Int32(b * 100 + d - 4800)
            <==> -536902956 <= j <= 536838867
  {
    var a := j + 32044;
    var b := Quot(4 * a + 3, 146097);
    var c := a - Quot(b * 146097, 4);
    var d := Quot(4 * c + 3, 1461);
    QuotBounds(4 * a + 3, 146097);
    QuotBounds(b * 146097, 4);
    QuotBounds(4 * c + 3, 1461);
    QuotBounds(1461 * d, 4);
    var e := c - Quot(1461 * d, 4);
    QuotBounds(5 * e + 2, 153);
  }

  /** Truncation moves a quotient toward zero by less than one. */
  lemma QuotBounds(a: int, n: int)
    requires n == 4 || n == 153 || n == 1461 || n == 146097
    ensures a >= 0 ==> n * Quot(a, n) <= a < n * Quot(a, n) + n && Quot(a, n) >= 0
    ensures a < 0 ==> n * Quot(a, n) - n < a <= n * Quot(a, n) && Quot(a, n) <= 0
  {
  }

  predicate Int32(x: int) { -0x8000_0000 <= x <= 0x7fff_ffff }
}
