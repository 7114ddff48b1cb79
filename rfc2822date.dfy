/** `strdate_to_rfc2822` (mailgunlog/mailgunlog.py:57-76): a `YYYY/MM/DD`
    text, or the current UTC date, plus one of three clock times, built into
    a `datetime` and printed in the date-time layout of section 3.3 of
    RFC 2822 with the fixed zone `-0000`. The clock is a parameter. */
module Rfc2822Date {
  import opened Wrappers
  import opened Strings
  import opened Decimal
  import opened Calendar

  /** A naive `datetime` value. */
  datatype DateTime = DateTime(date: Date, hour: int, minute: int, second: int, microsecond: int)

  /** The range checks the `datetime` constructor makes. */
  predicate ValidDateTime(t: DateTime) {
    && ValidDate(t.date)
    && 0 <= t.hour <= 23
    && 0 <= t.minute <= 59
    && 0 <= t.second <= 59
    && 0 <= t.microsecond <= 999999
  }

  datatype Field = Year | Month | Day | Hour | Minute | Second | Microsecond

  /** What `strdate_to_rfc2822` can raise. */
  datatype DateError =
    | ConflictingModes          // ValueError: both "midnight" and "now" asked for
    | NotAnInteger(piece: string)  // ValueError from int() on one piece
    | TooFewArguments           // TypeError: datetime() needs year, month and day
    | TooManyArguments          // TypeError: datetime() takes at most 8 positional arguments
    | ArgumentOverflow          // OverflowError: an argument does not fit a C int
    | OutOfRange(field: Field)  // ValueError from datetime()'s range checks
    | TzinfoNotAllowed          // TypeError: the 8th positional argument is tzinfo

  const CIntMin: int := -0x8000_0000
  const CIntMax: int := 0x7fff_ffff

  /** Positional argument `i`, or the constructor's default 0. */
  function Arg(args: seq<int>, i: nat): int {
    if i < |args| then args[i] else 0
  }

  /** The value `datetime(year, month, day, hour=0, minute=0, second=0,
      microsecond=0)` would hold for these arguments. */
  function FromArgs(args: seq<int>): DateTime
    requires |args| >= 3
  {
    DateTime(Date(args[0], args[1], args[2]), Arg(args, 3), Arg(args, 4), Arg(args, 5), Arg(args, 6))
  }

  /** `datetime(*args)` for integer arguments. The argument parser first
      refuses more than nine arguments (the eight positional parameters and
      the keyword-only `fold`). It then converts the arguments given, up to
      the seventh, to C ints; only after that does it refuse fewer than
      three arguments, and then a ninth positional argument. Year, month, day, hour, minute, second and
      microsecond are then range-checked in that order, and last an eighth
      argument, `tzinfo`, is refused because it is an integer. Nothing is
      ever clamped. */
  function Construct(args: seq<int>): (r: Result<DateTime, DateError>)
    ensures r.Success? <==> 3 <= |args| <= 7 && ValidDateTime(FromArgs(args))
    ensures r.Success? ==> r.value == FromArgs(args)
  {
    if |args| > 9 then Failure(TooManyArguments)
    else if exists i :: 0 <= i < |args| && i < 7 && !(CIntMin <= args[i] <= CIntMax) then Failure(ArgumentOverflow)
    else if |args| < 3 then Failure(TooFewArguments)
    else if |args| == 9 then Failure(TooManyArguments)
    else
      var t := FromArgs(args);
      if !(MinYear <= t.date.year <= MaxYear) then Failure(OutOfRange(Year))
      else if !(1 <= t.date.month <= 12) then Failure(OutOfRange(Month))
      else if !(1 <= t.date.day <= DaysInMonth(t.date.year, t.date.month)) then Failure(OutOfRange(Day))
      else if !(0 <= t.hour <= 23) then Failure(OutOfRange(Hour))
      else if !(0 <= t.minute <= 59) then Failure(OutOfRange(Minute))
      else if !(0 <= t.second <= 59) then Failure(OutOfRange(Second))
      else if !(0 <= t.microsecond <= 999999) then Failure(OutOfRange(Microsecond))
      else if |args| == 8 then Failure(TzinfoNotAllowed)
      else Success(t)
  }

  /** `%a` and `%b` in the C locale. */
  const DayNames: seq<string> := ["Mon", "Tue", "Wed", "Thu", "Fri", "Sat", "Sun"]
  const MonthNames: seq<string> :=
    ["Jan", "Feb", "Mar", "Apr", "May", "Jun", "Jul", "Aug", "Sep", "Oct", "Nov", "Dec"]

  /** `t.strftime('%a, %d %b %Y %H:%M:%S -0000')`. */
  function Render(t: DateTime): (s: string)
    requires ValidDateTime(t)
    ensures |s| == 31 && s[25..] == " -0000"
  {
    DayNames[Weekday(t.date)] + ", " + Padded(t.date.day, 2) + " " + MonthNames[t.date.month - 1] + " "
      + Padded(t.date.year, 4) + " " + Padded(t.hour, 2) + ":" + Padded(t.minute, 2) + ":" + Padded(t.second, 2)
      + " -0000"
  }

  /** The position of `s` in `names`, if it is there. */
  function IndexOf(names: seq<string>, s: string): (r: Option<nat>)
    ensures r.Some? ==> r.value < |names| && names[r.value] == s
    ensures r.None? ==> s !in names
  {
    if names == [] then None
    else if names[0] == s then Some(0)
    else match IndexOf(names[1..], s)
      case None => None
      case Some(k) => Some(k + 1)
  }

  /** Reads a timestamp in the rendered layout back: the date and time of
      day it shows, provided every field is well formed and the weekday name
      agrees with the date. */
  function Read(s: string): Option<DateTime>
  {
    if |s| != 31 || s[3..5] != ", " || s[7] != ' ' || s[11] != ' ' || s[16] != ' '
       || s[19] != ':' || s[22] != ':' || s[25..] != " -0000"
    then None
    else if !(AllDigits(s[5..7]) && AllDigits(s[12..16]) && AllDigits(s[17..19])
              && AllDigits(s[20..22]) && AllDigits(s[23..25]))
    then None
    else match IndexOf(MonthNames, s[8..11])
      case None => None
      case Some(k) =>
        var t := DateTime(Date(DigitsValue(s[12..16]), k + 1, DigitsValue(s[5..7])),
                          DigitsValue(s[17..19]), DigitsValue(s[20..22]), DigitsValue(s[23..25]), 0);
        if ValidDateTime(t) && DayNames[Weekday(t.date)] == s[..3] then Some(t) else None
  }

  lemma MonthNameIndex(m: int)
    requires 1 <= m <= 12
    ensures IndexOf(MonthNames, MonthNames[m - 1]) == Some(m - 1)
  {
    var names := MonthNames;
    var k := m - 1;
    assert forall j :: 0 <= j < 12 && j != k ==> names[j] != names[k] by {
      forall j | 0 <= j < 12 && j != k ensures names[j] != names[k] {
        assert names[j][0] != names[k][0] || names[j][1] != names[k][1] || names[j][2] != names[k][2];
      }
    }
    IndexOfDistinct(names, k);
  }

  lemma {:induction false} IndexOfDistinct(names: seq<string>, k: nat)
    requires k < |names|
    requires forall j :: 0 <= j < |names| && j != k ==> names[j] != names[k]
    ensures IndexOf(names, names[k]) == Some(k)
  {
    if k > 0 {
      IndexOfDistinct(names[1..], k - 1);
    }
  }

  /** The rendered text shows exactly the date, hour, minute and second it
      was printed from (the microsecond is not printed). */
  lemma ReadRender(t: DateTime)
    requires ValidDateTime(t)
    ensures Read(Render(t)) == Some(t.(microsecond := 0))
  {
    var dn, dd, mn := DayNames[Weekday(t.date)], Padded(t.date.day, 2), MonthNames[t.date.month - 1];
    var yy, hh, mi, ss := Padded(t.date.year, 4), Padded(t.hour, 2), Padded(t.minute, 2), Padded(t.second, 2);
    var s := Render(t);
    assert s == dn + ", " + dd + " " + mn + " " + yy + " " + hh + ":" + mi + ":" + ss + " -0000";
    Layout(dn, dd, mn, yy, hh, mi, ss);
    PaddedValue(t.date.day, 2);
    PaddedValue(t.date.year, 4);
    PaddedValue(t.hour, 2);
    PaddedValue(t.minute, 2);
    PaddedValue(t.second, 2);
    MonthNameIndex(t.date.month);
    assert AllDigits(s[5..7]) && AllDigits(s[12..16]) && AllDigits(s[17..19])
      && AllDigits(s[20..22]) && AllDigits(s[23..25]);
    assert IndexOf(MonthNames, s[8..11]) == Some(t.date.month - 1);
    var u := DateTime(Date(DigitsValue(s[12..16]), t.date.month, DigitsValue(s[5..7])),
                      DigitsValue(s[17..19]), DigitsValue(s[20..22]), DigitsValue(s[23..25]), 0);
    assert u == t.(microsecond := 0);
    assert ValidDateTime(u) && DayNames[Weekday(u.date)] == s[..3];
  }

  /** Where each field sits in the rendered layout. */
  lemma Layout(dn: string, dd: string, mn: string, yy: string, hh: string, mi: string, ss: string)
    requires |dn| == 3 && |dd| == 2 && |mn| == 3 && |yy| == 4 && |hh| == 2 && |mi| == 2 && |ss| == 2
    ensures var s := dn + ", " + dd + " " + mn + " " + yy + " " + hh + ":" + mi + ":" + ss + " -0000";
      && |s| == 31 && s[..3] == dn && s[3..5] == ", " && s[5..7] == dd && s[7] == ' '
      && s[8..11] == mn && s[11] == ' ' && s[12..16] == yy && s[16] == ' ' && s[17..19] == hh
      && s[19] == ':' && s[20..22] == mi && s[22] == ':' && s[23..25] == ss && s[25..] == " -0000"
  {
  }

  /** `d.strftime('%Y/%m/%d')`. */
  function DateText(d: Date): string
    requires ValidDate(d)
  {
    Padded(d.year, 4) + "/" + Padded(d.month, 2) + "/" + Padded(d.day, 2)
  }

  /** The position of the first piece `int()` rejects, or the number of
      pieces if it accepts them all. */
  function FirstRejected(pieces: seq<string>): (k: nat)
    ensures k <= |pieces|
    ensures forall j :: 0 <= j < k ==> ParseInt(pieces[j]).Some?
    ensures k < |pieces| ==> ParseInt(pieces[k]).None?
  {
    if pieces == [] || ParseInt(pieces[0]).None? then 0
    else
      var k := FirstRejected(pieces[1..]);
      assert forall j :: 1 <= j <= k ==> pieces[j] == pieces[1..][j - 1];
      1 + k
  }

  /** `list(map(int, pieces))`: every piece as an integer, or the first piece
      `int()` rejects. */
  function ParseAll(pieces: seq<string>): (r: Result<seq<int>, DateError>)
    ensures r.Success? ==>
              |r.value| == |pieces| && forall i :: 0 <= i < |pieces| ==> ParseInt(pieces[i]) == Some(r.value[i])
    ensures r.Failure? <==> FirstRejected(pieces) < |pieces|
    ensures r.Failure? ==> r.error == NotAnInteger(pieces[FirstRejected(pieces)])
  {
    if pieces == [] then Success([])
    else match ParseInt(pieces[0])
      case None => Failure(NotAnInteger(pieces[0]))
      case Some(v) =>
        match ParseAll(pieces[1..])
        case Failure(e) => Failure(e)
        case Success(vs) => Success([v] + vs)
  }

  /** The clock time appended to the parsed pieces. */
  function ClockTime(midnight: bool, now: bool, clock: DateTime): seq<int> {
    if midnight then [0, 0, 0]
    else if now then [clock.hour, clock.minute, clock.second]
    else [23, 59, 59]
  }

  /** `strdate_to_rfc2822(value, midnight, now)` with `clock` standing for
      `datetime.utcnow()`. */
  function StrdateToRfc2822(value: Option<string>, midnight: bool, now: bool, clock: DateTime)
    : (r: Result<string, DateError>)
    requires ValidDateTime(clock)
    ensures midnight && now ==> r == Failure(ConflictingModes)
    ensures r.Success? ==> |r.value| == 31 && r.value[25..] == " -0000"
  {
    if midnight && now then Failure(ConflictingModes)
    else
      var strdate := if Truthy(value) then value.value else DateText(clock.date);
      match ParseAll(Split(strdate, '/'))
      case Failure(e) => Failure(e)
      case Success(parts) =>
        match Construct(parts + ClockTime(midnight, now, clock))
        case Failure(e) => Failure(e)
        case Success(t) => Success(Render(t))
  }

  lemma JoinThree(a: string, b: string, c: string)
    ensures Join([a, b, c], '/') == a + "/" + b + "/" + c
  {
    assert [a, b, c][1..] == [b, c] && [b, c][1..] == [c];
    assert Join([b, c], '/') == b + ['/'] + c;
    assert Join([a, b, c], '/') == a + ['/'] + (b + ['/'] + c);
  }

  lemma ParseAllThree(a: string, b: string, c: string, x: int, y: int, z: int)
    requires ParseInt(a) == Some(x) && ParseInt(b) == Some(y) && ParseInt(c) == Some(z)
    ensures ParseAll([a, b, c]) == Success([x, y, z])
  {
    assert [a, b, c][1..] == [b, c] && [b, c][1..] == [c] && [c][1..] == [];
    assert ParseAll([]) == Success([]) && [z] + [] == [z];
    assert ParseAll([c]) == Success([z]);
    assert ParseAll([b, c]) == Success([y] + [z]);
    assert [y] + [z] == [y, z];
    var pieces := [a, b, c];
    assert pieces[0] == a && pieces[1..] == [b, c];
    assert ParseAll(pieces) == Success([x] + [y, z]);
    assert [x] + [y, z] == [x, y, z];
  }

  /** A date printed as `YYYY/MM/DD` parses back to its three numbers. */
  lemma ParseDateText(d: Date)
    requires ValidDate(d)
    ensures ParseAll(Split(DateText(d), '/')) == Success([d.year, d.month, d.day])
  {
    var a, b, c := Padded(d.year, 4), Padded(d.month, 2), Padded(d.day, 2);
    assert '/' !in a && '/' !in b && '/' !in c;
    JoinThree(a, b, c);
    SplitJoin([a, b, c], '/');
    ParsePadded(d.year, 4);
    ParsePadded(d.month, 2);
    ParsePadded(d.day, 2);
    ParseAllThree(a, b, c, d.year, d.month, d.day);
  }

  /** For a value made of three integers `y/m/d`: it renders exactly when
      `y-m-d` is a calendar date (an impossible date raises rather than being
      clamped), and then shows that date at the time the mode selects:
      00:00:00 for `midnight`, the clock's time for `now`, 23:59:59 otherwise. */
  lemma ThreePieceValue(value: string, y: int, m: int, d: int, midnight: bool, now: bool, clock: DateTime)
    requires ValidDateTime(clock) && !(midnight && now)
    requires value != [] && ParseAll(Split(value, '/')) == Success([y, m, d])
    ensures var r := StrdateToRfc2822(Some(value), midnight, now, clock);
      && (r.Success? <==> ValidDate(Date(y, m, d)))
      && (r.Success? && midnight ==> r.value == Render(DateTime(Date(y, m, d), 0, 0, 0, 0)))
      && (r.Success? && now ==>
            r.value == Render(DateTime(Date(y, m, d), clock.hour, clock.minute, clock.second, 0)))
      && (r.Success? && !midnight && !now ==> r.value == Render(DateTime(Date(y, m, d), 23, 59, 59, 0)))
  {
    var c := ClockTime(midnight, now, clock);
    DateAtTime(y, m, d, c);
  }

  /** Three date pieces followed by a valid time of day build a `datetime`
      exactly when they form a calendar date. */
  lemma DateAtTime(y: int, m: int, d: int, c: seq<int>)
    requires |c| == 3 && 0 <= c[0] <= 23 && 0 <= c[1] <= 59 && 0 <= c[2] <= 59
    ensures var r := Construct([y, m, d] + c);
      && (r.Success? <==> ValidDate(Date(y, m, d)))
      && (r.Success? ==> r.value == DateTime(Date(y, m, d), c[0], c[1], c[2], 0))
  {
    var args := [y, m, d] + c;
    assert |args| == 6 && args[..3] == [y, m, d] && args[3..] == c;
    assert FromArgs(args) == DateTime(Date(y, m, d), c[0], c[1], c[2], 0);
  }

  /** Without a value the current UTC date is used, at the mode's time. */
  lemma NoValueUsesClockDate(value: Option<string>, midnight: bool, now: bool, clock: DateTime)
    requires ValidDateTime(clock) && !(midnight && now)
    requires !Truthy(value)
    ensures var r := StrdateToRfc2822(value, midnight, now, clock);
      var c := ClockTime(midnight, now, clock);
      r == Success(Render(DateTime(clock.date, c[0], c[1], c[2], 0)))
  {
    ParseDateText(clock.date);
    DateAtTime(clock.date.year, clock.date.month, clock.date.day, ClockTime(midnight, now, clock));
  }

  /** A fourth piece is not rejected: `datetime` takes it as the hour and the
      mode's time moves one place along, so with `midnight` the text shows
      the fourth piece's hour, 00 minutes and 00 seconds. */
  lemma FourthPieceIsHour(value: string, y: int, m: int, d: int, h: int, clock: DateTime)
    requires ValidDateTime(clock)
    requires value != [] && ParseAll(Split(value, '/')) == Success([y, m, d, h])
    ensures var r := StrdateToRfc2822(Some(value), true, false, clock);
      && (r.Success? <==> ValidDateTime(DateTime(Date(y, m, d), h, 0, 0, 0)))
      && (r.Success? ==> r.value == Render(DateTime(Date(y, m, d), h, 0, 0, 0)))
  {
    ParsedValue(value, [y, m, d, h], true, false, clock);
    HourAtMidnight(y, m, d, h, clock);
  }

  /** A value whose pieces parse renders what the constructor builds from
      them and the mode's time, or raises what the constructor raises. */
  lemma ParsedValue(value: string, parts: seq<int>, midnight: bool, now: bool, clock: DateTime)
    requires ValidDateTime(clock) && !(midnight && now) && value != []
    requires ParseAll(Split(value, '/')) == Success(parts)
    ensures var c := Construct(parts + ClockTime(midnight, now, clock));
      StrdateToRfc2822(Some(value), midnight, now, clock)
        == if c.Success? then Success(Render(c.value)) else Failure(c.error)
  {
  }

  /** Four pieces followed by the `midnight` time build the `datetime` they
      name, with the fourth piece as the hour, exactly when it is valid. */
  lemma HourAtMidnight(y: int, m: int, d: int, h: int, clock: DateTime)
    ensures var r := Construct([y, m, d, h] + ClockTime(true, false, clock));
      && (r.Success? <==> ValidDateTime(DateTime(Date(y, m, d), h, 0, 0, 0)))
      && (r.Success? ==> r.value == DateTime(Date(y, m, d), h, 0, 0, 0))
  {
    var args := [y, m, d, h] + ClockTime(true, false, clock);
    assert args == [y, m, d, h, 0, 0, 0];
    assert FromArgs(args) == DateTime(Date(y, m, d), h, 0, 0, 0);
  }

  /** Five or more pieces always raise: an argument overflows a C int, a
      range check fails, the eighth argument lands on `tzinfo`, or there are
      too many arguments. */
  lemma FivePiecesRaise(value: Option<string>, midnight: bool, now: bool, clock: DateTime)
    requires ValidDateTime(clock) && Truthy(value)
    requires |Split(value.value, '/')| >= 5
    ensures StrdateToRfc2822(value, midnight, now, clock).Failure?
  {
  }

  /** With `midnight`, or with neither mode, a value of fewer than three
      pieces always raises: the appended time fills the month or the day
      with 0 or 23 and the hour with 0 or 59. */
  lemma ShortValueRaises(value: Option<string>, midnight: bool, clock: DateTime)
    requires ValidDateTime(clock) && Truthy(value)
    requires |Split(value.value, '/')| < 3
    ensures StrdateToRfc2822(value, midnight, false, clock).Failure?
  {
  }

  /** A value whose pieces parse but do not make a `datetime` raises what the
      constructor raises. */
  lemma ConstructionError(value: string, parts: seq<int>, midnight: bool, now: bool, clock: DateTime)
    requires ValidDateTime(clock) && !(midnight && now) && value != []
    requires ParseAll(Split(value, '/')) == Success(parts)
    requires Construct(parts + ClockTime(midnight, now, clock)).Failure?
    ensures StrdateToRfc2822(Some(value), midnight, now, clock)
              == Failure(Construct(parts + ClockTime(midnight, now, clock)).error)
  {
  }

  /** A value with a piece `int()` rejects raises `ValueError` for the first
      such piece, before any `datetime` is built. */
  lemma ParseFailureRaises(value: Option<string>, midnight: bool, now: bool, clock: DateTime)
    requires ValidDateTime(clock) && !(midnight && now) && Truthy(value)
    requires ParseAll(Split(value.value, '/')).Failure?
    ensures var p := Split(value.value, '/');
            StrdateToRfc2822(value, midnight, now, clock) == Failure(NotAnInteger(p[FirstRejected(p)]))
  {
  }

  /** Of three pieces, the second is the first one `int()` rejects. */
  lemma SecondPieceRejected(a: string, b: string, c: string)
    requires ParseInt(a).Some? && ParseInt(b).None?
    ensures FirstRejected([a, b, c]) == 1 && ParseAll([a, b, c]).Failure?
  {
    assert [a, b, c][1..] == [b, c];
  }

  /** A value `a/b/c` whose middle piece `int()` rejects, and whose first it
      accepts, raises `ValueError` naming the middle piece. */
  lemma SecondPieceRaises(a: string, b: string, c: string, midnight: bool, now: bool, clock: DateTime)
    requires ValidDateTime(clock) && !(midnight && now)
    requires '/' !in a && '/' !in b && '/' !in c
    requires ParseInt(a).Some? && ParseInt(b).None?
    ensures StrdateToRfc2822(Some(a + "/" + b + "/" + c), midnight, now, clock) == Failure(NotAnInteger(b))
  {
    SplitThree(a, b, c);
    SecondPieceRejected(a, b, c);
    ParseFailureRaises(Some(a + "/" + b + "/" + c), midnight, now, clock);
  }

  /** Three pieces without `/`, joined by `/`, split back into themselves. */
  lemma SplitThree(a: string, b: string, c: string)
    requires '/' !in a && '/' !in b && '/' !in c
    ensures Split(a + "/" + b + "/" + c, '/') == [a, b, c]
  {
    JoinThree(a, b, c);
    SplitJoin([a, b, c], '/');
  }

  lemma LetterPieceParses()
    ensures ParseInt("2024").Some? && ParseInt("ab").None?
  {
    assert AllDigits("2024");
    assert IsStray("ab"[0]);
  }

  /** A month written in letters raises `ValueError` naming it. */
  lemma LetterPieceRaises(clock: DateTime)
    requires ValidDateTime(clock)
    ensures StrdateToRfc2822(Some("2024/ab/01"), true, false, clock) == Failure(NotAnInteger("ab"))
  {
    assert "2024/ab/01" == "2024" + "/" + "ab" + "/" + "01";
    LetterPieceParses();
    SecondPieceRaises("2024", "ab", "01", true, false, clock);
  }

  lemma EmptyPieceParses()
    ensures ParseInt("2024").Some? && ParseInt("").None?
  {
    assert AllDigits("2024");
    assert Blank("");
  }

  /** An empty piece between two separators raises `ValueError` naming the
      empty text. */
  lemma EmptyPieceRaises(clock: DateTime)
    requires ValidDateTime(clock)
    ensures StrdateToRfc2822(Some("2024//01"), false, false, clock) == Failure(NotAnInteger(""))
  {
    assert "2024//01" == "2024" + "/" + "" + "/" + "01";
    EmptyPieceParses();
    SecondPieceRaises("2024", "", "01", false, false, clock);
  }

  lemma PaddedYear2024()
    ensures Padded(2024, 4) == "2024"
  {
    assert Padded(2, 1) == "2";
    assert Padded(20, 2) == "20";
    assert Padded(202, 3) == "202";
  }

  lemma MonthThirteenParts()
    ensures ParseAll(Split("2024/13/01", '/')) == Success([2024, 13, 1])
  {
    assert "2024/13/01" == "2024" + "/" + "13" + "/" + "01";
    SplitThree("2024", "13", "01");
    PaddedYear2024();
    assert Padded(13, 2) == "13" && Padded(1, 2) == "01";
    ParsePadded(2024, 4);
    ParsePadded(13, 2);
    ParsePadded(1, 2);
    ParseAllThree("2024", "13", "01", 2024, 13, 1);
  }

  lemma MonthThirteenConstruct()
    ensures Construct([2024, 13, 1] + [0, 0, 0]) == Failure(OutOfRange(Month))
  {
  }

  /** Month 13 raises `ValueError` rather than being clamped. */
  lemma MonthThirteenRaises(clock: DateTime)
    requires ValidDateTime(clock)
    ensures StrdateToRfc2822(Some("2024/13/01"), true, false, clock) == Failure(OutOfRange(Month))
  {
    var value := "2024/13/01";
    MonthThirteenParts();
    assert ClockTime(true, false, clock) == [0, 0, 0];
    assert Construct([2024, 13, 1] + [0, 0, 0]) == Failure(OutOfRange(Month)) by { MonthThirteenConstruct(); }
    ConstructionError(value, [2024, 13, 1], true, false, clock);
  }
}
