/** src/common/utils/payroll.util.ts: the due date, by changing a `Date` in place. */
module PayrollUtil {
  import opened Calendar
  import opened CalendarLaws

  /** A JavaScript `Date` in local time: a calendar day and the milliseconds within it. */
  class Date {
    var month: int
    var day: int
    var time: int

    function Civil(): Civil
      reads this
    {
      Calendar.Civil.Civil(month, day)
    }

    constructor (c: Civil, time: int)
      requires IsDate(c)
      ensures this.Civil() == c && this.time == time
    {
      this.month, this.day, this.time := c.month, c.day, time;
    }

    /** `setMonth`: the date that lies as many days after the first of month `m` as this one after its own first. */
    method SetMonth(m: int)
      modifies `month, `day
      ensures IsDate(Civil()) && DayNumber(Civil()) == MonthStart(m) + old(day) - 1
    {
      MakeDayIsDay(m, day);
      var c := MakeDay(m, day);
      month, day := c.month, c.day;
    }

    /** `setDate`: the date `d - 1` days after the first of this month, in whatever month that is. */
    method SetDate(d: int)
      modifies `month, `day
      ensures IsDate(Civil()) && DayNumber(Civil()) == MonthStart(old(month)) + d - 1
    {
      MakeDayIsDay(month, d);
      var c := MakeDay(month, d);
      month, day := c.month, c.day;
    }
  }

  function DueDate(request: Civil, cutoff: int, payrollDay: int): (due: Civil)
    ensures IsDate(due)
  {
    MakeDay(if request.day >= cutoff then MakeDay(request.month + 1, request.day).month else request.month, payrollDay)
  }

  method CalculateDueDate(request: Date, cutoff: int, payrollDay: int) returns (due: Date)
    requires IsDate(request.Civil())
    ensures fresh(due) && unchanged(request)
    ensures due.Civil() == DueDate(request.Civil(), cutoff, payrollDay) && due.time == request.time
  {
    hide MonthStart, DayNumber;
    due := new Date(request.Civil(), request.time);
    if request.day >= cutoff {
      due.SetMonth(due.month + 1);
      MakeDayIsDay(request.month + 1, request.day);
      DayNumberInjective(due.Civil(), MakeDay(request.month + 1, request.day));
    }
    MakeDayIsDay(due.month, payrollDay);
    ghost var expected := MakeDay(due.month, payrollDay);
    due.SetDate(payrollDay);
    DayNumberInjective(due.Civil(), expected);
  }
}

/** The dates of src/pricing/pricing.service.ts, and how they compare with the due date. */
module RecoveryDates {
  import opened Calendar
  import opened CalendarLaws
  import opened PayrollUtil

  const MS_PER_DAY := 24 * 60 * 60 * 1000

  /** `new Date(year, month, day)`: a year from 0 to 99 means 1900 to 1999. */
  function NewDate(year: int, month: int, day: int): Civil {
    MakeDay(12 * (if 0 <= year <= 99 then 1900 + year else year) + month, day)
  }

  function ResolveRecoveryDate(submission: Civil, payrollDay: int, cutoff: int): (recovery: Civil)
    ensures IsDate(recovery)
  {
    var year, month := submission.month / 12, submission.month % 12;
    if submission.day < cutoff then NewDate(year, month, payrollDay) else NewDate(year, month + 1, payrollDay)
  }

  /** Local time in milliseconds. */
  function Milliseconds(c: Civil, time: int): int {
    DayNumber(c) * MS_PER_DAY + time
  }

  function CeilDiv(x: int, y: int): int
    requires y > 0
  {
    -((-x) / y)
  }

  function Max(x: int, y: int): int {
    if x < y then y else x
  }

  function DaysBetween(start: int, end: int): int {
    Max(1, CeilDiv(end - start, MS_PER_DAY))
  }

  /** The interest days of a snapshot taken at `time` within the submission day. */
  function InterestDays(submission: Civil, time: int, payrollDay: int, cutoff: int): int {
    DaysBetween(Milliseconds(submission, time), Milliseconds(ResolveRecoveryDate(submission, payrollDay, cutoff), 0))
  }

  predicate IsDayOfMonth(d: int) {
    1 <= d <= 31
  }

  predicate TwoDigitYear(c: Civil) {
    0 <= c.month / 12 <= 99
  }

  /** Where both algorithms land, as a day number. */
  lemma RecoveryDayNumber(c: Civil, payrollDay: int, cutoff: int)
    requires !TwoDigitYear(c)
    ensures DayNumber(ResolveRecoveryDate(c, payrollDay, cutoff))
         == MonthStart(if c.day < cutoff then c.month else c.month + 1) + payrollDay - 1
  {
    hide MonthStart, MonthLength, MakeDay;
    assert c.month == 12 * (c.month / 12) + c.month % 12;
    MakeDayIsDay(if c.day < cutoff then c.month else c.month + 1, payrollDay);
  }

  lemma DueDayNumber(c: Civil, payrollDay: int, cutoff: int)
    requires IsDate(c)
    ensures DayNumber(DueDate(c, cutoff, payrollDay))
         == payrollDay - 1 + if c.day < cutoff then MonthStart(c.month)
                             else if c.day <= MonthLength(c.month + 1) then MonthStart(c.month + 1)
                             else MonthStart(c.month + 1) + MonthLength(c.month + 1)
  {
    hide MonthStart, MonthLength;
    if c.day < cutoff {
      MakeDayIsDay(c.month, payrollDay);
    } else if c.day <= MonthLength(c.month + 1) {
      MakeDayIsDay(c.month + 1, payrollDay);
    } else {
      assert MakeDay(c.month + 1, c.day) == Civil(c.month + 2, c.day - MonthLength(c.month + 1));
      MakeDayIsDay(c.month + 2, payrollDay);
      MonthStep(c.month + 1);
    }
  }

  /** The submission day carries over the end of the next month. */
  predicate Overflows(c: Civil, cutoff: int) {
    c.day >= cutoff && c.day > MonthLength(c.month + 1)
  }

  /** The two due-date algorithms agree exactly when the request is before cutoff or its day exists in the next
      month; otherwise the due date is later by exactly the next month's length. */
  lemma DueDatesAgreeIff(c: Civil, payrollDay: int, cutoff: int)
    requires IsDate(c) && IsDayOfMonth(payrollDay) && IsDayOfMonth(cutoff) && !TwoDigitYear(c)
    ensures var recovery, due := ResolveRecoveryDate(c, payrollDay, cutoff), DueDate(c, cutoff, payrollDay);
            && (recovery == due <==> c.day < cutoff || c.day <= MonthLength(c.month + 1))
            && DayNumber(due) == DayNumber(recovery) + if Overflows(c, cutoff) then MonthLength(c.month + 1) else 0
  {
    hide MonthStart, MonthLength, MakeDay, ResolveRecoveryDate, DueDate, TwoDigitYear;
    RecoveryDayNumber(c, payrollDay, cutoff);
    DueDayNumber(c, payrollDay, cutoff);
    DayNumberInjective(ResolveRecoveryDate(c, payrollDay, cutoff), DueDate(c, cutoff, payrollDay));
  }

  /** In the years 0 to 99 they never agree: only one of the two constructs its date from a year. */
  lemma DueDatesDifferInTwoDigitYears(c: Civil, payrollDay: int, cutoff: int)
    requires IsDate(c) && IsDayOfMonth(payrollDay) && IsDayOfMonth(cutoff) && TwoDigitYear(c)
    ensures ResolveRecoveryDate(c, payrollDay, cutoff) != DueDate(c, cutoff, payrollDay)
  {
    hide MonthStart, MonthLength, MakeDay, DueDate;
    var k := 12 * (1900 + c.month / 12) + c.month % 12 + if c.day < cutoff then 0 else 1;
    MakeDayIsDay(k, payrollDay);
    DueDayNumber(c, payrollDay, cutoff);
    MonthStep(c.month);
    MonthStep(c.month + 1);
    MonthsApart(c.month + 2, k);
  }

  // The payroll cycle: the month of the recovery date, as `getPayrollCycle` and `getPayrollCycleStart` take it

  /** The stored cycle and the cycle eligibility counts against agree unless the overflow moves the due date into
      another month; a payroll day past the end of the next month moves both. */
  lemma CyclesAgreeIff(c: Civil, payrollDay: int, cutoff: int)
    requires IsDate(c) && IsDayOfMonth(payrollDay) && IsDayOfMonth(cutoff) && !TwoDigitYear(c)
    ensures ResolveRecoveryDate(c, payrollDay, cutoff).month == DueDate(c, cutoff, payrollDay).month
       <==> c.day < cutoff || c.day <= MonthLength(c.month + 1) || payrollDay > MonthLength(c.month + 1)
  {
    hide MonthStart, DayNumber, MonthLength;
    if Overflows(c, cutoff) {
      ShortMonthThenLong(c.month + 1);
      CarryOnce(c.month + 1, c.day);
      CarryOnce(c.month + 1, payrollDay);
      CarryOnce(c.month + 2, payrollDay);
      assert c.month == 12 * (c.month / 12) + c.month % 12;
      assert ResolveRecoveryDate(c, payrollDay, cutoff) == MakeDay(c.month + 1, payrollDay);
    } else {
      DueDatesAgreeIff(c, payrollDay, cutoff);
    }
  }

  lemma CarryOnce(month: int, day: int)
    requires IsDayOfMonth(day)
    ensures MakeDay(month, day).month == if day <= MonthLength(month) then month else month + 1
  {
  }

  lemma ShortMonthThenLong(k: int)
    requires MonthLength(k) < 31
    ensures MonthLength(k + 1) == 31
  {
    var m := k % 12;
    assert (k + 1) % 12 == if m == 11 then 0 else m + 1;
  }

  // Interest days

  /** The recovery date is strictly after submission unless the payroll day has come before the cutoff day. */
  lemma RecoveryAfterSubmissionIff(c: Civil, payrollDay: int, cutoff: int)
    requires IsDate(c) && IsDayOfMonth(payrollDay) && IsDayOfMonth(cutoff) && !TwoDigitYear(c)
    ensures DayNumber(c) < DayNumber(ResolveRecoveryDate(c, payrollDay, cutoff))
       <==> c.day >= cutoff || payrollDay > c.day
  {
    hide MonthStart, MonthLength, ResolveRecoveryDate, TwoDigitYear;
    RecoveryDayNumber(c, payrollDay, cutoff);
    MonthStep(c.month);
  }

  lemma CeilOfWholeDays(n: int, time: int)
    requires 0 <= time < MS_PER_DAY
    ensures CeilDiv(n * MS_PER_DAY - time, MS_PER_DAY) == n
  {
    var x := time - n * MS_PER_DAY;
    assert x / MS_PER_DAY == -n;
  }

  /** Interest days are the days between the two dates on the calendar, whatever the time of day. */
  lemma InterestDaysAreCivilDays(c: Civil, time: int, payrollDay: int, cutoff: int)
    requires 0 <= time < MS_PER_DAY
    ensures InterestDays(c, time, payrollDay, cutoff)
         == Max(1, DayNumber(ResolveRecoveryDate(c, payrollDay, cutoff)) - DayNumber(c))
  {
    hide ResolveRecoveryDate, DayNumber;
    CeilOfWholeDays(DayNumber(ResolveRecoveryDate(c, payrollDay, cutoff)) - DayNumber(c), time);
  }

  /** With the cutoff no later than payday: at least one day and at most 61, month ends and year ends included. */
  lemma InterestDaysBounds(c: Civil, time: int, payrollDay: int, cutoff: int)
    requires IsDate(c) && IsDayOfMonth(payrollDay) && IsDayOfMonth(cutoff) && !TwoDigitYear(c)
    requires cutoff <= payrollDay && 0 <= time < MS_PER_DAY
    ensures 1 <= InterestDays(c, time, payrollDay, cutoff) <= 61
    ensures InterestDays(c, time, payrollDay, cutoff)
         == DayNumber(ResolveRecoveryDate(c, payrollDay, cutoff)) - DayNumber(c)
    ensures DayNumber(c) < DayNumber(ResolveRecoveryDate(c, payrollDay, cutoff))
  {
    hide MonthStart, MonthLength, ResolveRecoveryDate, InterestDays, TwoDigitYear;
    InterestDaysAreCivilDays(c, time, payrollDay, cutoff);
    RecoveryAfterSubmissionIff(c, payrollDay, cutoff);
    RecoveryDayNumber(c, payrollDay, cutoff);
    MonthStep(c.month);
  }

  /** 61 is reached, so no smaller bound holds. */
  lemma SixtyOneDays(k: int, time: int)
    requires MonthLength(k) == 31 && !(0 <= k / 12 <= 99) && 0 <= time < MS_PER_DAY
    ensures InterestDays(Civil(k, 1), time, 31, 1) == 61
  {
    InterestDaysBounds(Civil(k, 1), time, 31, 1);
    RecoveryDayNumber(Civil(k, 1), 31, 1);
    MonthStep(k);
  }
}
