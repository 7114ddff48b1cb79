/** The query window `main` resolves from its command-line options
    (mailgunlog/mailgunlog.py:131-138): with `--days N` the window starts at
    midnight N days before the local date and ends at 23:59:59 of the current
    UTC date; otherwise `--begin` is taken at midnight and `--end` at the
    current UTC time of day, each only when given. Both clocks are
    parameters. */
module Window {
  import opened Wrappers
  import opened Strings
  import opened Calendar
  import opened Rfc2822Date

  /** The `begin` and `end` texts handed to the fetcher. */
  datatype Window = Window(begin: Option<string>, end: Option<string>)

  datatype WindowError =
    | ShiftOverflow                 // OverflowError from date - relativedelta(days=N)
    | DateFailure(error: DateError) // what strdate_to_rfc2822 raised

  function Lift(r: Result<string, DateError>): Result<string, WindowError> {
    match r
    case Success(s) => Success(s)
    case Failure(e) => Failure(DateFailure(e))
  }

  /** Lines 131-138 of `main`: `days` is `args.days` (0 when absent, since 0
      is falsy too), `localToday` stands for `date.today()` and `clock` for
      `datetime.utcnow()`. */
  function ResolveWindow(days: int, beginArg: Option<string>, endArg: Option<string>,
                         localToday: Date, clock: DateTime): (r: Result<Window, WindowError>)
    requires ValidDate(localToday) && ValidDateTime(clock)
    ensures r.Success? && days != 0 ==> r.value.begin.Some? && r.value.end.Some?
    ensures r.Success? && days == 0 ==>
              (r.value.begin.Some? <==> Truthy(beginArg)) && (r.value.end.Some? <==> Truthy(endArg))
    ensures r.Success? && r.value.begin.Some? ==> |r.value.begin.value| == 31 && r.value.begin.value[25..] == " -0000"
    ensures r.Success? && r.value.end.Some? ==> |r.value.end.value| == 31 && r.value.end.value[25..] == " -0000"
  {
    if days != 0 then
      match ShiftDays(localToday, -days)
      case None => Failure(ShiftOverflow)
      case Some(beginDay) =>
        match Lift(StrdateToRfc2822(Some(DateText(beginDay)), true, false, clock))
        case Failure(e) => Failure(e)
        case Success(b) =>
          match Lift(StrdateToRfc2822(None, false, false, clock))
          case Failure(e) => Failure(e)
          case Success(e) => Success(Window(Some(b), Some(e)))
    else
      var b := if Truthy(beginArg) then Lift(StrdateToRfc2822(beginArg, true, false, clock)) else Success("");
      var e := if Truthy(endArg) then Lift(StrdateToRfc2822(endArg, false, true, clock)) else Success("");
      if b.Failure? then Failure(b.error)
      else if e.Failure? then Failure(e.error)
      else Success(Window(if Truthy(beginArg) then Some(b.value) else None,
                          if Truthy(endArg) then Some(e.value) else None))
  }

  /** With `--days N`: the window exists exactly when the day N days before
      the local date is representable; it then begins at midnight of that
      day, whose ordinal is N less than today's, and ends at 23:59:59 of the
      current UTC date (not at the current instant). */
  lemma DaysWindow(days: int, beginArg: Option<string>, endArg: Option<string>, localToday: Date, clock: DateTime)
    requires ValidDate(localToday) && ValidDateTime(clock) && days != 0
    ensures var r := ResolveWindow(days, beginArg, endArg, localToday, clock);
      && (r.Success? <==> 1 <= Ordinal(localToday) - days <= MaxOrdinal)
      && (r.Success? ==>
            var d := ShiftDays(localToday, -days).value;
            && Ordinal(d) == Ordinal(localToday) - days
            && r.value.begin == Some(Render(DateTime(d, 0, 0, 0, 0)))
            && r.value.end == Some(Render(DateTime(clock.date, 23, 59, 59, 0))))
  {
    ShiftDaysOrdinal(localToday, -days);
    var s := ShiftDays(localToday, -days);
    if s.Some? {
      var d := s.value;
      assert Ordinal(d) == Ordinal(localToday) + -days;
      var b := Render(DateTime(d, 0, 0, 0, 0));
      var e := Render(DateTime(clock.date, 23, 59, 59, 0));
      assert StrdateToRfc2822(Some(DateText(d)), true, false, clock) == Success(b) by {
        ParseDateText(d);
        ThreePieceValue(DateText(d), d.year, d.month, d.day, true, false, clock);
      }
      assert StrdateToRfc2822(None, false, false, clock) == Success(e) by {
        NoValueUsesClockDate(None, false, false, clock);
      }
      assert ResolveWindow(days, beginArg, endArg, localToday, clock) == Success(Window(Some(b), Some(e)));
    } else {
      assert ResolveWindow(days, beginArg, endArg, localToday, clock) == Failure(ShiftOverflow);
    }
  }

  /** Without `--days`: dates given as `YYYY/MM/DD` make a window from
      midnight of the begin date to the current UTC time of day on the end
      date; an option not given leaves that side open. */
  lemma ExplicitWindow(begin: Option<Date>, end: Option<Date>, localToday: Date, clock: DateTime)
    requires ValidDate(localToday) && ValidDateTime(clock)
    requires begin.Some? ==> ValidDate(begin.value)
    requires end.Some? ==> ValidDate(end.value)
    ensures var r := ResolveWindow(0, if begin.Some? then Some(DateText(begin.value)) else None,
                                   if end.Some? then Some(DateText(end.value)) else None, localToday, clock);
      && r.Success?
      && r.value.begin == (if begin.Some? then Some(Render(DateTime(begin.value, 0, 0, 0, 0))) else None)
      && r.value.end == (if end.Some? then
                           Some(Render(DateTime(end.value, clock.hour, clock.minute, clock.second, 0)))
                         else None)
  {
    if begin.Some? {
      var d := begin.value;
      ParseDateText(d);
      ThreePieceValue(DateText(d), d.year, d.month, d.day, true, false, clock);
    }
    if end.Some? {
      var d := end.value;
      ParseDateText(d);
      ThreePieceValue(DateText(d), d.year, d.month, d.day, false, true, clock);
    }
  }
}
