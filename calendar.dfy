/** The proleptic Gregorian calendar as Python's `datetime` module uses it:
    years 1 to 9999, leap years, month lengths, the day ordinal (day 1 is
    0001-01-01, a Monday), weekdays and stepping a date by whole days. */
module Calendar {
  import opened Wrappers

  const MinYear: int := 1
  const MaxYear: int := 9999

  datatype Date = Date(year: int, month: int, day: int)

  predicate IsLeapYear(y: int) {
    y % 4 == 0 && (y % 100 != 0 || y % 400 == 0)
  }

  function YearLength(y: int): int {
    if IsLeapYear(y) then 366 else 365
  }

  function DaysInMonth(y: int, m: int): int
    requires 1 <= m <= 12
  {
    if m == 2 then (if IsLeapYear(y) then 29 else 28)
    else if m == 4 || m == 6 || m == 9 || m == 11 then 30
    else 31
  }

  /** The checks `datetime` makes of year, month and day. */
  predicate ValidDate(d: Date) {
    && MinYear <= d.year <= MaxYear
    && 1 <= d.month <= 12
    && 1 <= d.day <= DaysInMonth(d.year, d.month)
  }

  /** Days in the years before `y`, in closed form. */
  function DaysBeforeYear(y: int): int
    requires y >= 1
  {
    var p := y - 1;
    p * 365 + p / 4 - p / 100 + p / 400
  }

  /** Days in the months of year `y` before month `m`. */
  function DaysBeforeMonth(y: int, m: int): int
    requires 1 <= m <= 12
  {
    [0, 31, 59, 90, 120, 151, 181, 212, 243, 273, 304, 334][m - 1]
      + (if m > 2 && IsLeapYear(y) then 1 else 0)
  }

  /** The day number of a date: 0001-01-01 is day 1. */
  function Ordinal(d: Date): int
    requires ValidDate(d)
  {
    DaysBeforeYear(d.year) + DaysBeforeMonth(d.year, d.month) + d.day
  }

  /** The day of the week, Monday = 0 ... Sunday = 6. */
  function Weekday(d: Date): (w: int)
    requires ValidDate(d)
    ensures 0 <= w < 7
  {
    (Ordinal(d) + 6) % 7
  }

  /** Days before year `y`, counted year by year: the reference the closed
      form is checked against. */
  function DaysBeforeYearByCounting(y: int): int
    requires y >= 1
  {
    if y == 1 then 0 else DaysBeforeYearByCounting(y - 1) + YearLength(y - 1)
  }

  /** Days before month `m`, counted month by month. */
  function DaysBeforeMonthByCounting(y: int, m: int): int
    requires 1 <= m <= 12
  {
    if m == 1 then 0 else DaysBeforeMonthByCounting(y, m - 1) + DaysInMonth(y, m - 1)
  }

  /** Going from one year to the next adds that year's length. */
  lemma DaysBeforeYearStep(y: int)
    requires y >= 1
    ensures DaysBeforeYear(y + 1) == DaysBeforeYear(y) + YearLength(y)
  {
    var p := y - 1;
    DivStep(p);
    Divisibility(y);
    var da := if y % 4 == 0 then 1 else 0;
    var db := if y % 100 == 0 then 1 else 0;
    var dc := if y % 400 == 0 then 1 else 0;
    assert DaysBeforeYear(y + 1) == DaysBeforeYear(y) + 365 + da - db + dc;
    assert YearLength(y) == 365 + da - db + dc;
  }

  /** A multiple of 400 is one of 100, and a multiple of 100 one of 4. */
  lemma Divisibility(y: int)
    ensures y % 400 == 0 ==> y % 100 == 0
    ensures y % 100 == 0 ==> y % 4 == 0
  {
    if y % 400 == 0 {
      FourHundredths(y);
    }
    if y % 100 == 0 {
      Hundredths(y);
    }
  }

  lemma FourHundredths(y: int)
    requires y % 400 == 0
    ensures y % 100 == 0
  {
    var j := 4 * (y / 400);
    assert y == 100 * j;
  }

  lemma Hundredths(y: int)
    requires y % 100 == 0
    ensures y % 4 == 0
  {
    var j := 25 * (y / 100);
    assert y == 4 * j;
  }

  /** How the closed form's quotients grow from `p` to `p + 1`. */
  lemma DivStep(p: int)
    requires p >= 0
    ensures (p + 1) / 4 == p / 4 + (if (p + 1) % 4 == 0 then 1 else 0)
    ensures (p + 1) / 100 == p / 100 + (if (p + 1) % 100 == 0 then 1 else 0)
    ensures (p + 1) / 400 == p / 400 + (if (p + 1) % 400 == 0 then 1 else 0)
  {
  }

  /** The closed form agrees with counting year by year. */
  lemma {:induction false} DaysBeforeYearAgrees(y: int)
    requires y >= 1
    ensures DaysBeforeYear(y) == DaysBeforeYearByCounting(y)
  {
    if y > 1 {
      DaysBeforeYearAgrees(y - 1);
      DaysBeforeYearStep(y - 1);
    }
  }

  /** The month table agrees with counting month by month. */
  lemma {:induction false} DaysBeforeMonthAgrees(y: int, m: int)
    requires 1 <= m <= 12
    ensures DaysBeforeMonth(y, m) == DaysBeforeMonthByCounting(y, m)
  {
    if m > 1 {
      DaysBeforeMonthAgrees(y, m - 1);
    }
  }

  /** The first and the last date `datetime` can represent. */
  const FirstDate: Date := Date(MinYear, 1, 1)
  const LastDate: Date := Date(MaxYear, 12, 31)

  /** The day after `d`; `None` past the last representable date, where
      Python raises `OverflowError`. */
  function NextDay(d: Date): (r: Option<Date>)
    requires ValidDate(d)
    ensures r.Some? ==> ValidDate(r.value)
    ensures r.None? <==> d == LastDate
  {
    if d.day < DaysInMonth(d.year, d.month) then Some(Date(d.year, d.month, d.day + 1))
    else if d.month < 12 then Some(Date(d.year, d.month + 1, 1))
    else if d.year < MaxYear then Some(Date(d.year + 1, 1, 1))
    else None
  }

  /** The day before `d`; `None` before the first representable date. */
  function PrevDay(d: Date): (r: Option<Date>)
    requires ValidDate(d)
    ensures r.Some? ==> ValidDate(r.value)
    ensures r.None? <==> d == FirstDate
  {
    if d.day > 1 then Some(Date(d.year, d.month, d.day - 1))
    else if d.month > 1 then Some(Date(d.year, d.month - 1, DaysInMonth(d.year, d.month - 1)))
    else if d.year > MinYear then Some(Date(d.year - 1, 12, 31))
    else None
  }

  /** The next day's ordinal is one more. */
  lemma NextDayOrdinal(d: Date)
    requires ValidDate(d) && d != LastDate
    ensures Ordinal(NextDay(d).value) == Ordinal(d) + 1
  {
    if d.day == DaysInMonth(d.year, d.month) && d.month == 12 {
      DaysBeforeYearStep(d.year);
    }
  }

  /** The previous day's ordinal is one less. */
  lemma PrevDayOrdinal(d: Date)
    requires ValidDate(d) && d != FirstDate
    ensures Ordinal(PrevDay(d).value) == Ordinal(d) - 1
  {
    if d.day == 1 && d.month == 1 {
      DaysBeforeYearStep(d.year - 1);
    }
  }

  /** Consecutive dates fall on consecutive weekdays. */
  lemma NextDayWeekday(d: Date)
    requires ValidDate(d) && d != LastDate
    ensures Weekday(NextDay(d).value) == (Weekday(d) + 1) % 7
  {
    NextDayOrdinal(d);
    WeekdayStep(Ordinal(d), Ordinal(NextDay(d).value));
  }

  lemma WeekdayStep(o: int, o': int)
    requires o' == o + 1
    ensures (o' + 6) % 7 == ((o + 6) % 7 + 1) % 7
  {
  }

  /** The ordinal of the last representable date. */
  const MaxOrdinal: int := 3652059

  /** Every valid date's ordinal lies between those of the first and last dates. */
  lemma OrdinalBounds(d: Date)
    requires ValidDate(d)
    ensures 1 <= Ordinal(d) <= MaxOrdinal
    ensures Ordinal(d) == 1 <==> d == FirstDate
    ensures Ordinal(d) == MaxOrdinal <==> d == LastDate
  {
    var p := d.year - 1;
    assert p / 4 >= p / 100 && p / 100 >= p / 400;
    assert DaysBeforeMonth(d.year, d.month) + DaysInMonth(d.year, d.month) <= YearLength(d.year);
    DaysBeforeYearStep(d.year);
    var q := MaxYear;
    assert p + 1 <= q;
    assert DaysBeforeYear(d.year + 1) <= DaysBeforeYear(MaxYear + 1);
  }

  /** `d + timedelta(days=n)`: `None` where Python raises `OverflowError`. */
  function ShiftDays(d: Date, n: int): (r: Option<Date>)
    requires ValidDate(d)
    ensures r.Some? ==> ValidDate(r.value)
    decreases if n < 0 then -n else n
  {
    if n == 0 then Some(d)
    else if n > 0 then
      match NextDay(d)
      case None => None
      case Some(e) => ShiftDays(e, n - 1)
    else
      match PrevDay(d)
      case None => None
      case Some(e) => ShiftDays(e, n + 1)
  }

  /** Shifting by `n` days moves the ordinal by exactly `n`, and fails exactly
      when the target lies outside the representable range. */
  lemma ShiftDaysOrdinal(d: Date, n: int)
    requires ValidDate(d)
    ensures ShiftDays(d, n).Some? <==> 1 <= Ordinal(d) + n <= MaxOrdinal
    ensures ShiftDays(d, n).Some? ==> Ordinal(ShiftDays(d, n).value) == Ordinal(d) + n
  {
    OrdinalBounds(d);
    if n >= 0 {
      ShiftForward(d, n);
    } else {
      ShiftBackward(d, n);
    }
  }

  lemma {:induction false} ShiftForward(d: Date, n: int)
    requires ValidDate(d) && n >= 0
    ensures ShiftDays(d, n).Some? <==> Ordinal(d) + n <= MaxOrdinal
    ensures ShiftDays(d, n).Some? ==> Ordinal(ShiftDays(d, n).value) == Ordinal(d) + n
    decreases n
  {
    if n == 0 {
      OrdinalBounds(d);
    } else if d == LastDate {
      OrdinalBounds(d);
      StepForward(d, n);
    } else {
      var e := NextDay(d).value;
      ShiftForward(e, n - 1);
      NextDayOrdinal(d);
      StepForward(d, n);
    }
  }

  /** One step of a forward shift. */
  lemma StepForward(d: Date, n: int)
    requires ValidDate(d) && n > 0
    ensures d == LastDate ==> ShiftDays(d, n) == None
    ensures d != LastDate ==> ShiftDays(d, n) == ShiftDays(NextDay(d).value, n - 1)
  {
  }

  lemma {:induction false} ShiftBackward(d: Date, m: int)
    requires ValidDate(d) && m <= 0
    ensures ShiftDays(d, m).Some? <==> 1 <= Ordinal(d) + m
    ensures ShiftDays(d, m).Some? ==> Ordinal(ShiftDays(d, m).value) == Ordinal(d) + m
    decreases -m
  {
    if m == 0 {
      OrdinalBounds(d);
    } else if d == FirstDate {
      StepBack(d, m);
    } else {
      var e := PrevDay(d).value;
      ShiftBackward(e, m + 1);
      PrevDayOrdinal(d);
      StepBack(d, m);
    }
  }

  /** One step of a backward shift. */
  lemma StepBack(d: Date, m: int)
    requires ValidDate(d) && m < 0
    ensures d == FirstDate ==> ShiftDays(d, m) == None
    ensures d != FirstDate ==> ShiftDays(d, m) == ShiftDays(PrevDay(d).value, m + 1)
  {
  }

}
