/** Calendar arithmetic of the Moabits adapter: adding months to a date, with the
    day cut to the length of the month, and the six-month limit on usage. */
module Months {
  import opened Option

  datatype Date = Date(year: int, month: int, day: int)

  /** A date with the seconds since midnight. */
  datatype Moment = Moment(date: Date, second: real)

  predicate IsLeap(year: int) { year % 4 == 0 && (year % 100 != 0 || year % 400 == 0) }

  function MonthLength(leap: bool, month: int): (n: int)
    ensures 28 <= n <= 31
  {
    if month == 2 then if leap then 29 else 28
    else if month == 4 || month == 6 || month == 9 || month == 11 then 30
    else 31
  }

  function DaysIn(year: int, month: int): int { MonthLength(IsLeap(year), month) }

  /** The dates the calendar has, in the years the program's dates have. */
  predicate Valid(d: Date) {
    1 <= d.year <= 9999 && 1 <= d.month <= 12 && 1 <= d.day <= DaysIn(d.year, d.month)
  }

  predicate ValidMoment(m: Moment) { Valid(m.date) && 0.0 <= m.second < 86400.0 }

  function Smaller(a: int, b: int): int { if a < b then a else b }

  /** Years outside 1 to 9999 raise an error. */
  function AddMonths(d: Date, months: int): Option<Date> {
    var index := d.month - 1 + months;
    var year, month := d.year + index / 12, index % 12 + 1;
    if 1 <= year <= 9999 then Some(Date(year, month, Smaller(d.day, DaysIn(year, month)))) else None
  }

  /** The time of day stays. */
  function AddMonthsTo(m: Moment, months: int): Option<Moment> {
    match AddMonths(m.date, months)
    case None => None
    case Some(d) => Some(Moment(d, m.second))
  }

  // ---------- Order and distance ----------

  predicate NotAfter(a: Date, b: Date) {
    a.year < b.year || (a.year == b.year && (a.month < b.month || (a.month == b.month && a.day <= b.day)))
  }

  function YearLength(leap: bool): int { if leap then 366 else 365 }

  function DaysBeforeYear(year: int): int
    decreases year
  {
    if year <= 1 then 0 else DaysBeforeYear(year - 1) + YearLength(IsLeap(year - 1))
  }

  function DaysBeforeMonth(leap: bool, month: int): int
    decreases month
  {
    if month <= 1 then 0 else DaysBeforeMonth(leap, month - 1) + MonthLength(leap, month - 1)
  }

  /** Days since the calendar's first day. */
  function DayNumber(d: Date): int { DaysBeforeYear(d.year) + DaysBeforeMonth(IsLeap(d.year), d.month) + d.day }

  /** The days before each month, written out. */
  lemma {:induction false} MonthStarts(leap: bool, month: int)
    requires 1 <= month <= 13
    ensures DaysBeforeMonth(leap, month) ==
              if month == 1 then 0 else if month == 2 then 31
              else (if leap then 1 else 0) + [59, 90, 120, 151, 181, 212, 243, 273, 304, 334, 365][month - 3]
  {
    if month > 1 { MonthStarts(leap, month - 1); }
  }

  function NextDay(d: Date): Date {
    if d.day < DaysIn(d.year, d.month) then Date(d.year, d.month, d.day + 1)
    else if d.month < 12 then Date(d.year, d.month + 1, 1)
    else Date(d.year + 1, 1, 1)
  }

  /** Day numbers count days: the next day has the next number. */
  lemma NextDayNumber(d: Date)
    requires Valid(d)
    ensures DayNumber(NextDay(d)) == DayNumber(d) + 1
  {
    if d.day == DaysIn(d.year, d.month) && d.month == 12 {
      MonthStarts(IsLeap(d.year), 12);
    }
  }

  lemma FourthYears(n: int)
    ensures (n + 1) / 4 == n / 4 + if (n + 1) % 4 == 0 then 1 else 0
  {
  }

  lemma Centuries(n: int)
    ensures (n + 1) / 100 == n / 100 + if (n + 1) % 100 == 0 then 1 else 0
  {
  }

  lemma FourthCenturies(n: int)
    ensures (n + 1) / 400 == n / 400 + if (n + 1) % 400 == 0 then 1 else 0
  {
  }

  lemma LeapYears(y: int)
    ensures (y % 400 == 0 ==> y % 100 == 0) && (y % 100 == 0 ==> y % 4 == 0)
  {
    assert y == 400 * (y / 400) + y % 400 && y == 100 * (y / 100) + y % 100;
  }

  /** The days before each year: a leap day every fourth year, but of the full
      centuries only every fourth. */
  lemma {:induction false} YearStarts(year: int)
    requires 1 <= year
    ensures var n := year - 1; DaysBeforeYear(year) == 365 * n + n / 4 - n / 100 + n / 400
    decreases year
  {
    if year > 1 {
      YearStarts(year - 1);
      FourthYears(year - 2);
      Centuries(year - 2);
      FourthCenturies(year - 2);
      LeapYears(year - 1);
    }
  }

  lemma {:induction false} LaterYearStarts(a: int, b: int)
    requires 1 <= a <= b
    ensures DaysBeforeYear(a) <= DaysBeforeYear(b)
    decreases b - a
  {
    if a < b { LaterYearStarts(a, b - 1); }
  }

  lemma {:induction false} LaterMonthStarts(leap: bool, a: int, b: int)
    requires 1 <= a < b
    ensures DaysBeforeMonth(leap, a) + MonthLength(leap, a) <= DaysBeforeMonth(leap, b)
    decreases b
  {
    if a < b - 1 { LaterMonthStarts(leap, a, b - 1); }
  }

  lemma DayInYear(d: Date)
    requires Valid(d)
    ensures 1 <= DaysBeforeMonth(IsLeap(d.year), d.month) + d.day <= YearLength(IsLeap(d.year))
  {
    MonthStarts(IsLeap(d.year), d.month);
  }

  lemma {:induction false} YearEndsBefore(d: Date, year: int)
    requires Valid(d) && d.year < year
    ensures DayNumber(d) <= DaysBeforeYear(year)
  {
    DayInYear(d);
    LaterYearStarts(d.year + 1, year);
  }

  lemma EarlierHasSmallerNumber(a: Date, b: Date)
    requires Valid(a) && Valid(b) && NotAfter(a, b) && a != b
    ensures DayNumber(a) < DayNumber(b)
  {
    if a.year < b.year {
      YearEndsBefore(a, b.year);
      DayInYear(b);
    } else if a.month < b.month {
      LaterMonthStarts(IsLeap(a.year), a.month, b.month);
    }
  }

  /** They order dates as the calendar does. */
  lemma DayNumbersOrder(a: Date, b: Date)
    requires Valid(a) && Valid(b)
    ensures NotAfter(a, b) <==> DayNumber(a) <= DayNumber(b)
  {
    if NotAfter(a, b) && a != b { EarlierHasSmallerNumber(a, b); }
    if !NotAfter(a, b) { EarlierHasSmallerNumber(b, a); }
  }

  // ---------- Adding months ----------

  /** The result is a date of the calendar, in the month so many months on, and
      keeps the day if that month has it. */
  lemma AddMonthsIsValid(d: Date, months: int)
    requires Valid(d) && AddMonths(d, months).Some?
    ensures var r := AddMonths(d, months).value;
            Valid(r) && 12 * r.year + r.month == 12 * d.year + d.month + months
            && r.day <= d.day && (r.day == d.day || r.day == DaysIn(r.year, r.month))
  {
  }

  /** Later dates and more months never give an earlier date. */
  lemma AddMonthsIsMonotone(a: Date, b: Date, m: int, n: int)
    requires Valid(a) && Valid(b) && NotAfter(a, b) && m <= n
    requires AddMonths(a, m).Some? && AddMonths(b, n).Some?
    ensures NotAfter(AddMonths(a, m).value, AddMonths(b, n).value)
  {
    AddMonthsIsValid(a, m);
    AddMonthsIsValid(b, n);
    MonthCountOrders(AddMonths(a, m).value, AddMonths(b, n).value);
  }

  lemma MonthCountOrders(a: Date, b: Date)
    requires Valid(a) && Valid(b)
    ensures 12 * a.year + a.month < 12 * b.year + b.month
            <==> a.year < b.year || (a.year == b.year && a.month < b.month)
    ensures 12 * a.year + a.month == 12 * b.year + b.month <==> a.year == b.year && a.month == b.month
  {
  }

  predicate MomentNotAfter(a: Moment, b: Moment) {
    NotAfter(a.date, b.date) && (a.date == b.date ==> a.second <= b.second)
  }

  /** With the time of day it is monotone but for one family: two moments of one
      month, on days both cut to the same last day, the first at a later hour. */
  lemma AddMonthsToIsMonotoneIff(a: Moment, b: Moment, months: int)
    requires ValidMoment(a) && ValidMoment(b) && MomentNotAfter(a, b)
    requires AddMonthsTo(a, months).Some? && AddMonthsTo(b, months).Some?
    ensures var last := DaysIn(AddMonths(a.date, months).value.year, AddMonths(a.date, months).value.month);
            MomentNotAfter(AddMonthsTo(a, months).value, AddMonthsTo(b, months).value) <==>
            !(a.date.year == b.date.year && a.date.month == b.date.month && last <= a.date.day && a.second > b.second)
  {
    AddMonthsIsMonotone(a.date, b.date, months, months);
    AddMonthsIsValid(a.date, months);
    AddMonthsIsValid(b.date, months);
    MonthCountOrders(AddMonths(a.date, months).value, AddMonths(b.date, months).value);
    MonthCountOrders(a.date, b.date);
  }

  /** January 30 at ten comes before January 31 at nine; a month later it does not. */
  lemma OneMonthCanReverse()
    ensures var a, b := Moment(Date(2023, 1, 30), 36000.0), Moment(Date(2023, 1, 31), 32400.0);
            ValidMoment(a) && ValidMoment(b) && MomentNotAfter(a, b)
            && AddMonthsTo(a, 1).Some? && AddMonthsTo(b, 1).Some?
            && !MomentNotAfter(AddMonthsTo(a, 1).value, AddMonthsTo(b, 1).value)
  {
    var a, b := Moment(Date(2023, 1, 30), 36000.0), Moment(Date(2023, 1, 31), 32400.0);
    assert DaysIn(2023, 2) == 28 && DaysIn(2023, 1) == 31;
    AddMonthsToIsMonotoneIff(a, b, 1);
  }

  // ---------- Six months ----------

  lemma FirstHalf(leap: bool, month: int, day: int)
    requires 1 <= month <= 6 && 1 <= day <= MonthLength(leap, month)
    ensures var later := Smaller(day, MonthLength(leap, month + 6));
            181 <= DaysBeforeMonth(leap, month + 6) + later - (DaysBeforeMonth(leap, month) + day) <= 184
  {
    MonthStarts(leap, month);
    MonthStarts(leap, month + 6);
  }

  lemma SecondHalf(leap: bool, nextLeap: bool, month: int, day: int)
    requires 7 <= month <= 12 && 1 <= day <= MonthLength(leap, month)
    ensures var later := Smaller(day, MonthLength(nextLeap, month - 6));
            var end := YearLength(leap) + DaysBeforeMonth(nextLeap, month - 6) + later;
            181 <= end - (DaysBeforeMonth(leap, month) + day) <= 184
  {
    MonthStarts(leap, month);
    MonthStarts(nextLeap, month - 6);
  }

  /** The date half a year on. */
  function HalfYearOn(d: Date): Date {
    if d.month <= 6 then Date(d.year, d.month + 6, Smaller(d.day, DaysIn(d.year, d.month + 6)))
    else Date(d.year + 1, d.month - 6, Smaller(d.day, DaysIn(d.year + 1, d.month - 6)))
  }

  lemma SixMonthsOn(d: Date)
    requires Valid(d) && AddMonths(d, 6).Some?
    ensures AddMonths(d, 6).value == HalfYearOn(d)
  {
  }

  /** The day of its year that a date is. */
  function DayOfYear(leap: bool, month: int, day: int): int { DaysBeforeMonth(leap, month) + day }

  lemma SpanInYear(start: int, leap: bool, month: int, day: int)
    requires 1 <= month <= 6 && 1 <= day <= MonthLength(leap, month)
    ensures var later := start + DayOfYear(leap, month + 6, Smaller(day, MonthLength(leap, month + 6)));
            181 <= later - (start + DayOfYear(leap, month, day)) <= 184
  {
    FirstHalf(leap, month, day);
  }

  lemma SpanAcrossYears(start: int, leap: bool, nextLeap: bool, month: int, day: int)
    requires 7 <= month <= 12 && 1 <= day <= MonthLength(leap, month)
    ensures var laterDay := Smaller(day, MonthLength(nextLeap, month - 6));
            var later := start + YearLength(leap) + DayOfYear(nextLeap, month - 6, laterDay);
            181 <= later - (start + DayOfYear(leap, month, day)) <= 184
  {
    SecondHalf(leap, nextLeap, month, day);
  }

  lemma FirstHalfSpan(d: Date)
    requires Valid(d) && d.month <= 6
    ensures 181 <= DayNumber(HalfYearOn(d)) - DayNumber(d) <= 184
  {
    SpanInYear(DaysBeforeYear(d.year), IsLeap(d.year), d.month, d.day);
  }

  lemma SecondHalfSpan(d: Date)
    requires Valid(d) && d.month > 6
    ensures 181 <= DayNumber(HalfYearOn(d)) - DayNumber(d) <= 184
  {
    SpanAcrossYears(DaysBeforeYear(d.year), IsLeap(d.year), IsLeap(d.year + 1), d.month, d.day);
  }

  /** Six months are 181 to 184 days, whatever the start. */
  lemma SixMonthsSpan(d: Date)
    requires Valid(d) && AddMonths(d, 6).Some?
    ensures 181 <= DayNumber(AddMonths(d, 6).value) - DayNumber(d) <= 184
  {
    SixMonthsOn(d);
    if d.month <= 6 { FirstHalfSpan(d); } else { SecondHalfSpan(d); }
  }

  function Elapsed(a: Moment, b: Moment): real {
    (DayNumber(b.date) - DayNumber(a.date)) as real * 86400.0 + b.second - a.second
  }

  datatype Verdict = Accepted | Refused | Overflow

  /** The checks on a usage range. */
  function CheckRange(start: Moment, end: Moment): Verdict {
    if !MomentNotAfter(start, end) then Refused
    else match AddMonthsTo(start, 6)
      case None => Overflow
      case Some(limit) => if MomentNotAfter(end, limit) then Accepted else Refused
  }

  lemma ElapsedOrders(a: Moment, b: Moment)
    requires ValidMoment(a) && ValidMoment(b)
    ensures MomentNotAfter(a, b) <==> Elapsed(a, b) >= 0.0
  {
    DayNumbersOrder(a.date, b.date);
    DayNumbersOrder(b.date, a.date);
  }

  /** An accepted range is no longer than 184 days, and one of up to 181 days is
      always accepted, as far as the calendar goes. */
  lemma AcceptedRanges(start: Moment, end: Moment)
    requires ValidMoment(start) && ValidMoment(end)
    ensures CheckRange(start, end).Accepted? ==> 0.0 <= Elapsed(start, end) <= 184.0 * 86400.0
    ensures 0.0 <= Elapsed(start, end) <= 181.0 * 86400.0 ==> !CheckRange(start, end).Refused?
    ensures CheckRange(start, end).Overflow? ==> start.date.year == 9999 && start.date.month > 6
  {
    ElapsedOrders(start, end);
    var limit := AddMonthsTo(start, 6);
    if limit.Some? {
      SixMonthsSpan(start.date);
      AddMonthsIsValid(start.date, 6);
      ElapsedOrders(end, limit.value);
      assert Elapsed(end, limit.value) ==
             (DayNumber(limit.value.date) - DayNumber(start.date)) as real * 86400.0 - Elapsed(start, end);
    }
  }

  /** Adding months fails exactly if the month counted to is outside the years 1 to
      9999. */
  lemma AddMonthsFailsIff(d: Date, months: int)
    requires Valid(d)
    ensures AddMonths(d, months).None? <==>
            !(12 * 1 + 1 <= 12 * d.year + d.month + months <= 12 * 9999 + 12)
  {
  }

  /** `limit` lies six calendar months after `start`: at the same time of the same
      day, or of the month's last day if the month is too short. */
  predicate SixMonthsAfter(start: Moment, limit: Moment) {
    && 12 * limit.date.year + limit.date.month == 12 * start.date.year + start.date.month + 6
    && (limit.date.day == start.date.day
        || (limit.date.day < start.date.day && limit.date.day == DaysIn(limit.date.year, limit.date.month)))
    && limit.second == start.second
  }

  /** A range is accepted exactly if it does not end before it starts nor later than
      six calendar months after its start. */
  lemma AcceptedIff(start: Moment, end: Moment, limit: Moment)
    requires ValidMoment(start) && ValidMoment(end) && ValidMoment(limit) && SixMonthsAfter(start, limit)
    ensures CheckRange(start, end).Accepted? <==> 0.0 <= Elapsed(start, end) <= Elapsed(start, limit)
    ensures !CheckRange(start, end).Overflow?
  {
    ElapsedOrders(start, end);
    ElapsedOrders(end, limit);
    LimitIsUnique(start, limit);
    assert Elapsed(end, limit) == Elapsed(start, limit) - Elapsed(start, end);
  }

  lemma LimitIsUnique(start: Moment, limit: Moment)
    requires ValidMoment(start) && ValidMoment(limit) && SixMonthsAfter(start, limit)
    ensures AddMonthsTo(start, 6) == Some(limit)
  {
    AddMonthsFailsIff(start.date, 6);
    AddMonthsIsValid(start.date, 6);
    MonthCountOrders(AddMonths(start.date, 6).value, limit.date);
  }

  /** Where there is no such moment any more, the check breaks off; it still refuses
      a range that ends before it starts. */
  lemma OverflowIff(start: Moment, end: Moment)
    requires ValidMoment(start) && ValidMoment(end)
    ensures CheckRange(start, end).Overflow? <==>
            Elapsed(start, end) >= 0.0 && start.date.year == 9999 && start.date.month > 6
  {
    ElapsedOrders(start, end);
    AddMonthsFailsIff(start.date, 6);
  }
}
