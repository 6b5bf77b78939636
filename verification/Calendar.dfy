/** Calendar-month arithmetic on Gregorian dates: the clamping addition of the billing service and the
    overflowing period end of the quote calculator. */
module Calendar {

  // ---------------------------------------------------------------- the Gregorian calendar

  predicate IsLeap(y: int) {
    y % 4 == 0 && (y % 100 != 0 || y % 400 == 0)
  }

  /** The day number of 1 January, counted from 1 January 1970. */
  function DayFromYear(y: int): int {
    365 * (y - 1970) + (y - 1969) / 4 - (y - 1901) / 100 + (y - 1601) / 400
  }

  /** Months are numbered from 0. */
  function DaysInMonth(y: int, m: int): (n: int)
    requires 0 <= m < 12
    ensures 28 <= n <= 31
  {
    if m == 1 then (if IsLeap(y) then 29 else 28)
    else if m in {3, 5, 8, 10} then 30
    else 31
  }

  /** The days of the year before month m. */
  function DaysBefore(y: int, m: int): int
    requires 0 <= m <= 12
  {
    if m == 0 then 0
    else if m == 1 then 31
    else
      (if IsLeap(y) then 1 else 0) +
      match m
      case 2 => 59
      case 3 => 90
      case 4 => 120
      case 5 => 151
      case 6 => 181
      case 7 => 212
      case 8 => 243
      case 9 => 273
      case 10 => 304
      case 11 => 334
      case _ => 365
  }

  function MonthStart(y: int, m: int): int
    requires 0 <= m <= 12
  {
    DayFromYear(y) + DaysBefore(y, m)
  }

  /** The day number of a date whose month and day may lie outside their ranges. */
  function MakeDay(y: int, m: int, d: int): int {
    MonthStart(y + m / 12, m % 12) + d - 1
  }

  lemma FourthYears(y: int)
    ensures (y - 1968) / 4 - (y - 1969) / 4 == if y % 4 == 0 then 1 else 0
  {
  }

  lemma Centuries(y: int)
    ensures (y - 1900) / 100 - (y - 1901) / 100 == if y % 100 == 0 then 1 else 0
  {
  }

  lemma FourthCenturies(y: int)
    ensures (y - 1600) / 400 - (y - 1601) / 400 == if y % 400 == 0 then 1 else 0
  {
  }

  lemma LeapDivisors(y: int)
    ensures y % 400 == 0 ==> y % 100 == 0
    ensures y % 100 == 0 ==> y % 4 == 0
  {
  }

  lemma YearLength(y: int)
    ensures DayFromYear(y + 1) - DayFromYear(y) == if IsLeap(y) then 366 else 365
  {
    FourthYears(y);
    Centuries(y);
    FourthCenturies(y);
    LeapDivisors(y);
  }

  /** The table of days before a month agrees with the lengths of the months and of the year. */
  lemma MonthLength(y: int, m: int)
    requires 0 <= m < 12
    ensures DaysBefore(y, m + 1) == DaysBefore(y, m) + DaysInMonth(y, m)
    ensures DaysBefore(y, 12) == DayFromYear(y + 1) - DayFromYear(y)
  {
    YearLength(y);
  }

  // ---------------------------------------------------------------- reading a day number

  /** The year of a day, searched from year y. */
  function YearFrom(t: int, y: int): (r: int)
    ensures DayFromYear(r) <= t < DayFromYear(r + 1)
    decreases if DayFromYear(y) <= t then t - DayFromYear(y) else DayFromYear(y) - t
  {
    YearLength(y);
    YearLength(y - 1);
    if DayFromYear(y) <= t then
      if t < DayFromYear(y + 1) then y else YearFrom(t, y + 1)
    else
      if DayFromYear(y - 1) <= t then y - 1 else YearFrom(t, y - 1)
  }

  function YearOf(t: int): (y: int)
    ensures DayFromYear(y) <= t < DayFromYear(y + 1)
  {
    YearFrom(t, 1970)
  }

  function MonthFrom(y: int, dayOfYear: int, m: int): (r: int)
    requires 0 <= m < 12 && DaysBefore(y, m) <= dayOfYear < DaysBefore(y, 12)
    ensures 0 <= r < 12 && DaysBefore(y, r) <= dayOfYear < DaysBefore(y, r + 1)
    decreases 12 - m
  {
    if dayOfYear < DaysBefore(y, m + 1) then m else MonthFrom(y, dayOfYear, m + 1)
  }

  function MonthOf(t: int): (m: int)
    ensures 0 <= m < 12
    ensures MonthStart(YearOf(t), m) <= t < MonthStart(YearOf(t), m + 1)
  {
    MonthLength(YearOf(t), 0);
    MonthFrom(YearOf(t), t - DayFromYear(YearOf(t)), 0)
  }

  function DateOf(t: int): (d: int)
    ensures 1 <= d <= DaysInMonth(YearOf(t), MonthOf(t))
    ensures MonthStart(YearOf(t), MonthOf(t)) + d - 1 == t
  {
    MonthLength(YearOf(t), MonthOf(t));
    t - MonthStart(YearOf(t), MonthOf(t)) + 1
  }

  // ---------------------------------------------------------------- months counted through

  /** The first day of month i, months counted through all years. */
  function FirstOf(i: int): int {
    MonthStart(i / 12, i % 12)
  }

  function LengthOf(i: int): int {
    DaysInMonth(i / 12, i % 12)
  }

  /** A day as the number of its month and its date in it. */
  datatype Reading = Reading(index: int, date: int)

  /** What the arithmetic needs of a calendar: where months begin and how long they are, how a day is
      read, and which day a year, month and date make. */
  datatype Calendar = Calendar(first: int -> int, length: int -> int, yearOf: int -> int, monthOf: int -> int, dateOf: int -> int,
                               makeDay: (int, int, int) -> int)
  {
    function Read(t: int): Reading {
      Reading(12 * yearOf(t) + monthOf(t), dateOf(t))
    }

    predicate Reads(t: int, r: Reading) {
      t == first(r.index) + r.date - 1 && 1 <= r.date <= length(r.index)
    }

    predicate Makes(y: int, m: int, d: int) {
      makeDay(y, m, d) == first(12 * y + m) + d - 1
    }

    /** Months of 28 to 31 days follow one another, */
    ghost predicate MonthsFollow() {
      forall i {:trigger length(i)} :: 28 <= length(i) <= 31 && first(i + 1) == first(i) + length(i)
    }

    /** days are read as what they are, */
    ghost predicate DaysRead() {
      forall t {:trigger Read(t)} :: Reads(t, Read(t))
    }

    /** and months out of range run through the years. */
    ghost predicate MonthsRunThrough() {
      forall y, m, d {:trigger makeDay(y, m, d)} :: Makes(y, m, d)
    }

    ghost predicate Proper() {
      MonthsFollow() && DaysRead() && MonthsRunThrough()
    }
  }

  const GREGORIAN := Calendar(FirstOf, LengthOf, YearOf, MonthOf, DateOf, MakeDay)

  lemma MonthFollows(i: int)
    ensures FirstOf(i + 1) == FirstOf(i) + LengthOf(i) && 28 <= LengthOf(i) <= 31
  {
    MonthLength(i / 12, i % 12);
    if i % 12 == 11 {
      assert (i + 1) / 12 == i / 12 + 1 && (i + 1) % 12 == 0;
    } else {
      assert (i + 1) / 12 == i / 12 && (i + 1) % 12 == i % 12 + 1;
    }
  }

  lemma IndexParts(y: int, m: int)
    ensures (12 * y + m) / 12 == y + m / 12 && (12 * y + m) % 12 == m % 12
  {
  }

  lemma MonthOfYear(y: int, m: int)
    requires 0 <= m < 12
    ensures FirstOf(12 * y + m) == MonthStart(y, m) && LengthOf(12 * y + m) == DaysInMonth(y, m)
  {
    IndexParts(y, m);
  }

  lemma DayReads(t: int)
    ensures t == FirstOf(12 * YearOf(t) + MonthOf(t)) + DateOf(t) - 1
    ensures 1 <= DateOf(t) <= LengthOf(12 * YearOf(t) + MonthOf(t))
  {
    MonthOfYear(YearOf(t), MonthOf(t));
  }

  lemma ReadsFromParts(c: Calendar, t: int, y: int, m: int, d: int)
    requires c.yearOf(t) == y && c.monthOf(t) == m && c.dateOf(t) == d
    requires t == c.first(12 * y + m) + d - 1 && 1 <= d <= c.length(12 * y + m)
    ensures c.Reads(t, c.Read(t))
  {
  }

  lemma GregorianDayReads(t: int)
    ensures GREGORIAN.Reads(t, GREGORIAN.Read(t))
  {
    DayReads(t);
    ReadsFromParts(GREGORIAN, t, YearOf(t), MonthOf(t), DateOf(t));
  }

  lemma GregorianMakes(y: int, m: int, d: int)
    ensures GREGORIAN.Makes(y, m, d)
  {
    MakeDayRunsThrough(y, m, d);
  }

  lemma MakeDayRunsThrough(y: int, m: int, d: int)
    ensures MakeDay(y, m, d) == FirstOf(12 * y + m) + d - 1
  {
    IndexParts(y, m);
  }

  /** The months by their lengths, and the day that is numbered 0. */
  lemma GregorianMonths(y: int, m: int)
    requires 0 <= m < 12
    ensures LengthOf(12 * y + m) ==
            [31, if (y % 4 == 0 && y % 100 != 0) || y % 400 == 0 then 29 else 28, 31, 30, 31, 30, 31, 31, 30, 31, 30, 31][m]
    ensures FirstOf(12 * 1970) == 0
  {
    IndexParts(y, m);
  }

  lemma GregorianMonthsFollow()
    ensures GREGORIAN.MonthsFollow()
  {
    forall i ensures 28 <= GREGORIAN.length(i) <= 31 && GREGORIAN.first(i + 1) == GREGORIAN.first(i) + GREGORIAN.length(i) {
      MonthFollows(i);
    }
  }

  lemma GregorianDaysRead()
    ensures GREGORIAN.DaysRead()
  {
    forall t ensures GREGORIAN.Reads(t, GREGORIAN.Read(t)) {
      GregorianDayReads(t);
    }
  }

  lemma GregorianMonthsRunThrough()
    ensures GREGORIAN.MonthsRunThrough()
  {
    forall y, m, d ensures GREGORIAN.Makes(y, m, d) {
      GregorianMakes(y, m, d);
    }
  }

  /** The Gregorian calendar is proper. */
  lemma GregorianIsProper()
    ensures GREGORIAN.Proper()
  {
    GregorianMonthsFollow();
    GregorianDaysRead();
    GregorianMonthsRunThrough();
  }

  lemma {:induction false} FirstsGrow(c: Calendar, i: int, j: int)
    requires c.Proper() && i < j
    ensures c.first(i) + c.length(i) <= c.first(j)
    decreases j - i
  {
    assert c.length(i) >= 28;
    if i + 1 < j {
      FirstsGrow(c, i + 1, j);
      assert c.length(i + 1) >= 28;
    }
  }

  /** A day has one reading. */
  lemma OneReading(c: Calendar, t: int, r: Reading)
    requires c.Proper() && c.Reads(t, r)
    ensures c.Read(t) == r
  {
    var q := c.Read(t);
    assert c.Reads(t, q);
    if r.index < q.index {
      FirstsGrow(c, r.index, q.index);
    } else if q.index < r.index {
      FirstsGrow(c, q.index, r.index);
    }
  }

  // ---------------------------------------------------------------- the additions

  function Least(a: int, b: int): int {
    if a <= b then a else b
  }

  /** The same date so many months on, or the last day of that month. */
  function Clamped(c: Calendar, t: int, months: int): int {
    c.first(c.Read(t).index + months) + Least(c.dateOf(t), c.length(c.Read(t).index + months)) - 1
  }

  /** The same date so many months on, run over into the month after if need be. */
  function Overflowing(c: Calendar, t: int, months: int): int {
    c.first(c.Read(t).index + months) + c.dateOf(t) - 1
  }

  /** A Date's day; the time of day is not changed by what follows. */
  class CalendarDate {
    const calendar: Calendar
    var day: int

    constructor (calendar: Calendar, day: int)
      ensures this.calendar == calendar && this.day == day
    {
      this.calendar := calendar;
      this.day := day;
    }

    method SetDate(d: int)
      requires calendar.Proper()
      modifies this
      ensures day == calendar.first(calendar.Read(old(day)).index) + d - 1
    {
      day := calendar.makeDay(calendar.yearOf(day), calendar.monthOf(day), d);
    }

    method SetMonth(m: int)
      requires calendar.Proper()
      modifies this
      ensures day == calendar.first(12 * calendar.yearOf(old(day)) + m) + calendar.dateOf(old(day)) - 1
    {
      day := calendar.makeDay(calendar.yearOf(day), m, calendar.dateOf(day));
    }

    method SetFullYear(y: int)
      requires calendar.Proper()
      modifies this
      ensures day == calendar.first(12 * y + calendar.monthOf(old(day))) + calendar.dateOf(old(day)) - 1
    {
      day := calendar.makeDay(y, calendar.monthOf(day), calendar.dateOf(day));
    }
  }

  /** Day 0 of the month after is the last day of the month. */
  lemma LastDayOfMonth(c: Calendar, i: int)
    requires c.Proper()
    ensures var first := c.first(i);
            c.dateOf(c.makeDay(c.yearOf(first), c.monthOf(first) + 1, 0)) == c.length(i)
    ensures c.Read(c.first(i)) == Reading(i, 1)
  {
    var first := c.first(i);
    assert c.length(i) >= 28;
    OneReading(c, first, Reading(i, 1));
    assert c.makeDay(c.yearOf(first), c.monthOf(first) + 1, 0) == c.first(i + 1) - 1;
    OneReading(c, c.first(i + 1) - 1, Reading(i, c.length(i)));
  }

  /** Go to the first of the month, then move by months. */
  method MoveToFirst(date: CalendarDate, months: int)
    requires date.calendar.Proper()
    modifies date
    ensures date.day == date.calendar.first(date.calendar.Read(old(date.day)).index + months)
  {
    var c := date.calendar;
    ghost var i := c.Read(date.day).index;
    assert c.length(i) >= 28;
    date.SetDate(1);
    OneReading(c, date.day, Reading(i, 1));
    date.SetMonth(c.monthOf(date.day) + months);
  }

  /** The billing service's addition: go to the first of the target month, then take the date or the
      month's last day. */
  method AddCalendarMonths(source: CalendarDate, months: int) returns (result: CalendarDate)
    requires source.calendar.Proper()
    ensures fresh(result) && result.calendar == source.calendar
    ensures result.day == Clamped(source.calendar, source.day, months)
  {
    var c := source.calendar;
    ghost var target := c.Read(source.day).index + months;
    result := new CalendarDate(c, source.day);
    var originalDay := c.dateOf(result.day);
    MoveToFirst(result, months);
    LastDayOfMonth(c, target);
    assert result.day == c.first(target) && c.Read(result.day).index == target;
    var lastDay := c.dateOf(c.makeDay(c.yearOf(result.day), c.monthOf(result.day) + 1, 0));
    result.SetDate(Least(originalDay, lastDay));
  }

  datatype Cycle = Monthly | Termly | Yearly | Manual

  /** The quote calculator's period end, which lets the date run over into the next month. */
  method PeriodEnd(start: CalendarDate, cycle: Cycle) returns (end: CalendarDate)
    requires start.calendar.Proper()
    ensures fresh(end) && end.calendar == start.calendar
    ensures end.day == Overflowing(start.calendar, start.day, match cycle case Monthly => 1 case Termly => 4 case Yearly => 12 case Manual => 0)
  {
    var c := start.calendar;
    assert c.Reads(start.day, c.Read(start.day));
    end := new CalendarDate(c, start.day);
    match cycle {
      case Monthly => end.SetMonth(c.monthOf(end.day) + 1);
      case Termly => end.SetMonth(c.monthOf(end.day) + 4);
      case Yearly => end.SetFullYear(c.yearOf(end.day) + 1);
      case Manual =>
    }
  }

  // ---------------------------------------------------------------- what the additions promise

  /** Clamped addition always lands in the intended month, on the same date unless that month is too
      short for it. */
  lemma ClampedLandsInMonth(c: Calendar, t: int, months: int)
    requires c.Proper()
    ensures var target := c.Read(t).index + months;
            c.Read(Clamped(c, t, months)) == Reading(target, Least(c.dateOf(t), c.length(target)))
  {
    var target := c.Read(t).index + months;
    assert c.length(target) >= 28 && c.Reads(t, c.Read(t));
    OneReading(c, Clamped(c, t, months), Reading(target, Least(c.dateOf(t), c.length(target))));
  }

  /** A later start never gives an earlier end. */
  lemma ClampedGrows(c: Calendar, t: int, u: int, months: int)
    requires c.Proper() && t <= u
    ensures Clamped(c, t, months) <= Clamped(c, u, months)
  {
    var i, j := c.Read(t).index, c.Read(u).index;
    assert c.Reads(t, c.Read(t)) && c.Reads(u, c.Read(u));
    if i < j {
      FirstsGrow(c, i + months, j + months);
    } else if j < i {
      FirstsGrow(c, j, i);
    }
  }

  /** A positive number of months gives a strictly later day. */
  lemma ClampedIsLater(c: Calendar, t: int, months: int)
    requires c.Proper() && months > 0
    ensures Clamped(c, t, months) > t
  {
    var i := c.Read(t).index;
    assert c.Reads(t, c.Read(t)) && c.length(i + months) >= 28;
    FirstsGrow(c, i, i + months);
  }

  /** The days by which the start's date passes the length of the target month. */
  function Excess(c: Calendar, t: int, months: int): int {
    var length := c.length(c.Read(t).index + months);
    if c.dateOf(t) > length then c.dateOf(t) - length else 0
  }

  /** The two ends differ by exactly the days by which the start's date passes the length of the
      target month: from 0 to 3 days, whatever the number of months. */
  lemma OverflowExceedsClamped(c: Calendar, t: int, months: int)
    requires c.Proper()
    ensures Overflowing(c, t, months) - Clamped(c, t, months) == Excess(c, t, months)
    ensures 0 <= Excess(c, t, months) <= 3
  {
    assert c.Reads(t, c.Read(t)) && c.length(c.Read(t).index) <= 31 && c.length(c.Read(t).index + months) >= 28;
  }

  /** All of this holds of Gregorian dates. */
  lemma GregorianAddition(t: int, u: int, months: int)
    ensures GREGORIAN.Read(Clamped(GREGORIAN, t, months)).index == GREGORIAN.Read(t).index + months
    ensures t <= u ==> Clamped(GREGORIAN, t, months) <= Clamped(GREGORIAN, u, months)
    ensures months > 0 ==> Clamped(GREGORIAN, t, months) > t
    ensures Overflowing(GREGORIAN, t, months) - Clamped(GREGORIAN, t, months) == Excess(GREGORIAN, t, months)
    ensures 0 <= Excess(GREGORIAN, t, months) <= 3
  {
    GregorianIsProper();
    ClampedLandsInMonth(GREGORIAN, t, months);
    if t <= u {
      ClampedGrows(GREGORIAN, t, u, months);
    }
    if months > 0 {
      ClampedIsLater(GREGORIAN, t, months);
    }
    OverflowExceedsClamped(GREGORIAN, t, months);
  }

  lemma OverflowsByThree(c: Calendar, i: int)
    requires c.Proper() && c.length(i) == 31 && c.length(i + 1) == 28
    ensures Overflowing(c, c.first(i) + 30, 1) == Clamped(c, c.first(i) + 30, 1) + 3
  {
    OneReading(c, c.first(i) + 30, Reading(i, 31));
  }

  lemma JanuaryBeforeShortFebruary(y: int)
    requires !IsLeap(y)
    ensures LengthOf(12 * y) == 31 && LengthOf(12 * y + 1) == 28
  {
    IndexParts(y, 0);
    IndexParts(y, 1);
  }

  /** Three days are reached: by 31 January and one month, in every year that is not a leap year. */
  lemma OverflowReachesThree(y: int)
    requires !IsLeap(y)
    ensures var t := FirstOf(12 * y) + 30; Overflowing(GREGORIAN, t, 1) == Clamped(GREGORIAN, t, 1) + 3
  {
    GregorianIsProper();
    JanuaryBeforeShortFebruary(y);
    assert GREGORIAN.length(12 * y) == 31 && GREGORIAN.length(12 * y + 1) == 28;
    OverflowsByThree(GREGORIAN, 12 * y);
  }
}
