/**
 The proleptic Gregorian calendar as ECMAScript's `Date` uses it, in one fixed
 local offset. A month is numbered 12 * year + month, with January as month 0.
 */
module Calendar {

  predicate IsLeap(year: int) {
    year % 4 == 0 && (year % 100 != 0 || year % 400 == 0)
  }

  function MonthLength(k: int): (n: int)
    ensures 28 <= n <= 31
  {
    var m := k % 12;
    if m == 1 then (if IsLeap(k / 12) then 29 else 28)
    else if m in {3, 5, 8, 10} then 30
    else 31
  }

  /** Days from 1 January of year 0 to 1 January of `year`. */
  function YearStart(year: int): int {
    365 * year + (year + 3) / 4 - (year + 99) / 100 + (year + 399) / 400
  }

  function DaysBeforeMonth(m: int, leap: bool): int
    requires 0 <= m < 12
  {
    [0, 31, 59, 90, 120, 151, 181, 212, 243, 273, 304, 334][m] + if leap && m >= 2 then 1 else 0
  }

  function MonthStart(k: int): int {
    YearStart(k / 12) + DaysBeforeMonth(k % 12, IsLeap(k / 12))
  }

  datatype Civil = Civil(month: int, day: int)

  predicate IsDate(c: Civil) {
    1 <= c.day <= MonthLength(c.month)
  }

  function DayNumber(c: Civil): int {
    MonthStart(c.month) + c.day - 1
  }

  /** `MakeDay`: any day of a month, carried into the months after or before it. */
  function MakeDay(month: int, day: int): (c: Civil)
    ensures IsDate(c)
    decreases if day < 1 then 1 - day else 0, day
  {
    if day < 1 then MakeDay(month - 1, day + MonthLength(month - 1))
    else if day > MonthLength(month) then MakeDay(month + 1, day - MonthLength(month))
    else Civil(month, day)
  }
}

module CalendarLaws {
  import opened Calendar

  lemma YearStep(y: int)
    ensures YearStart(y + 1) == YearStart(y) + if IsLeap(y) then 366 else 365
  {
    assert (y + 4) / 4 - (y + 3) / 4 == if y % 4 == 0 then 1 else 0;
    assert (y + 100) / 100 - (y + 99) / 100 == if y % 100 == 0 then 1 else 0;
    assert (y + 400) / 400 - (y + 399) / 400 == if y % 400 == 0 then 1 else 0;
    assert y % 400 == 0 ==> y % 100 == 0;
    assert y % 100 == 0 ==> y % 4 == 0;
  }

  /** The closed formula for the start of a month agrees with counting the months one by one. */
  lemma MonthStep(k: int)
    ensures MonthStart(k + 1) == MonthStart(k) + MonthLength(k)
  {
    var y, m := k / 12, k % 12;
    assert k == 12 * y + m;
    if m == 11 {
      assert (k + 1) / 12 == y + 1 && (k + 1) % 12 == 0;
      YearStep(y);
    } else {
      assert (k + 1) / 12 == y && (k + 1) % 12 == m + 1;
    }
  }

  /** February has 29 days in every fourth year but three in four centuries, and the other months theirs. */
  lemma MonthLengths(year: int, m: int)
    requires 0 <= m < 12
    ensures var n := MonthLength(12 * year + m);
            && (n == 29 <==> m == 1 && ((year % 4 == 0 && year % 100 != 0) || year % 400 == 0))
            && (n == 28 <==> m == 1 && ((year % 4 != 0 || year % 100 == 0) && year % 400 != 0))
            && (n == 30 <==> m == 3 || m == 5 || m == 8 || m == 10)
            && (n == 31 <==> m == 0 || m == 2 || m == 4 || m == 6 || m == 7 || m == 9 || m == 11)
  {
    assert (12 * year + m) / 12 == year && (12 * year + m) % 12 == m;
  }

  /** The calendar repeats after four centuries, which are 146,097 days. */
  lemma FourCenturies(k: int)
    ensures MonthLength(k + 4800) == MonthLength(k) && MonthStart(k + 4800) == MonthStart(k) + 146_097
  {
    var y := k / 12;
    assert (k + 4800) / 12 == y + 400 && (k + 4800) % 12 == k % 12;
    LeapAgain(y);
    assert (y + 400 + 3) / 4 == (y + 3) / 4 + 100 && (y + 400 + 99) / 100 == (y + 99) / 100 + 4;
    assert (y + 400 + 399) / 400 == (y + 399) / 400 + 1;
  }

  lemma LeapAgain(y: int)
    ensures IsLeap(y + 400) == IsLeap(y)
  {
    assert (y + 400) % 4 == y % 4 && (y + 400) % 100 == y % 100 && (y + 400) % 400 == y % 400;
  }

  lemma {:induction false} MonthsApart(i: int, j: int)
    requires i <= j
    ensures MonthStart(j) - MonthStart(i) >= 28 * (j - i)
    decreases j - i
  {
    hide MonthStart;
    if i < j {
      MonthsApart(i, j - 1);
      MonthStep(j - 1);
    }
  }

  /** Carrying days over months keeps the day the caller asked for. */
  lemma {:induction false} MakeDayIsDay(month: int, day: int)
    ensures DayNumber(MakeDay(month, day)) == MonthStart(month) + day - 1
    decreases if day < 1 then 1 - day else 0, day
  {
    hide MonthStart;
    if day < 1 {
      MakeDayIsDay(month - 1, day + MonthLength(month - 1));
      MonthStep(month - 1);
    } else if day > MonthLength(month) {
      MakeDayIsDay(month + 1, day - MonthLength(month));
      MonthStep(month);
    }
  }

  /** Dates and day numbers correspond one to one. */
  lemma DayNumberInjective(c: Civil, d: Civil)
    requires IsDate(c) && IsDate(d)
    ensures DayNumber(c) == DayNumber(d) <==> c == d
    ensures c.month < d.month ==> DayNumber(c) < DayNumber(d)
  {
    hide MonthStart;
    if c.month < d.month {
      MonthsApart(c.month + 1, d.month);
      MonthStep(c.month);
    }
    if d.month < c.month {
      MonthsApart(d.month + 1, c.month);
      MonthStep(d.month);
    }
  }
}
