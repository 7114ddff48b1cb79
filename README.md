# mailgunlog, modelled in Dafny

`mailgunlog` is a command-line tool that downloads the event log of a Mailgun
domain. This project models four parts of `mailgunlog/mailgunlog.py` and
proves properties about them:

- **The `logs` generator** (lines 14-54). It builds the query parameters
  from `begin`, `end`, `severity` and `type`. It then requests page after
  page and yields each page's items in order. A response that is not OK
  raises. It follows each page's `paging.next` link, without parameters,
  until a page comes back empty. In the model, the HTTP server is a finite
  scripted sequence of decoded responses. `EventLog.Logs` is a method with a
  loop over that script, and it records every request it issues and every
  record it yields.
- **`strdate_to_rfc2822`** (lines 57-76). It splits a `YYYY/MM/DD` text on
  `/` and converts each piece with Python's `int()`. It appends one of
  three clock times and builds a `datetime`. It then prints that value as
  `Dow, DD Mon YYYY HH:MM:SS -0000`, the date-time layout of section 3.3 of
  RFC 2822. The model covers:
  - `int()` on text, with its default limit of 4300 digits (`Decimal`);
  - `str.split` (`Strings`);
  - the proleptic Gregorian calendar and its weekdays (`Calendar`);
  - the order of checks in the `datetime` constructor, and the `strftime`
    rendering (`Rfc2822Date`).
- **Choosing the query window in `main`** (lines 131-138), in `Window`.
- **The text line `main` prints for each record** (lines 177-182), in
  `TextLine`.

The current UTC time (`datetime.utcnow()`) and the local date
(`date.today()`) are parameters. The model takes both `utcnow()` calls to
return the same instant.

The code differs from a plain reading of the `--days` option. With
`--days N`, the window's end is `strdate_to_rfc2822()` with no arguments,
which is 23:59:59 of the current **UTC** date, not the current instant. Its
begin is midnight N days before the **local** date. The model follows the
code (`Window.DaysWindow`).

## Model

| member | source | states |
|---|---|---|
| EventLog.QueryParamsContents | mailgunlog/mailgunlog.py:17-30 | `begin`, `end` and `severity` are sent exactly when truthy, with the given text. `ascending=no` is sent exactly when `end` is falsy. `event=failed` is sent exactly when the type is `'failed'`, and no other type adds anything. No other key is ever sent. |
| EventLog.Logs | mailgunlog/mailgunlog.py:32-54 | How the loop ends, the requests it issues and the records it yields are those the specification functions compute from the script: it stops at the first response after which it cannot go on. The first request goes to the events URL with the parameters; each later request goes to the previous page's `paging.next`, with none. The yields are the items of the pages in order, without those of a failed page. |
| EventLog.YieldAll | mailgunlog/mailgunlog.py:45-46 | Yielding a page's items one by one appends exactly that page's items, in order. |
| EventLog.ParamsOnlyOnFirstRequest | mailgunlog/mailgunlog.py:48-51 | Only the first request carries parameters. Every later request has none, and its URL is the previous page's `paging.next`. |
| EventLog.FinishesAtFirstEmptyPage | mailgunlog/mailgunlog.py:44-54 | If pages 0 to n-1 have items and a link, and page n is OK and empty, the generator returns normally. It will have yielded exactly the items of pages 0 to n-1 and issued n+1 requests. |
| EventLog.ErrorStopsAtOnce | mailgunlog/mailgunlog.py:39-40 | A response that is not OK raises with its status at once. None of its items are yielded and no further request is issued. |
| EventLog.MissingLinkAfterItems | mailgunlog/mailgunlog.py:44-50 | A page with items but no `paging.next` yields its items and then raises `KeyError`, without another request. |
| EventLog.RecordsArePagesInOrder | mailgunlog/mailgunlog.py:44-46 | The items of the pages before any page the loop reaches form a prefix of everything it yields. |
| EventLog.StopIndexIs | mailgunlog/mailgunlog.py:32-54 | The loop stops at the first response that is not OK, has no items or has no link. |
| Rfc2822Date.StrdateToRfc2822 | mailgunlog/mailgunlog.py:57-76 | Asking for both `midnight` and `now` raises before any parsing. Any text it returns is 31 characters long and ends with ` -0000`. |
| Rfc2822Date.ParseFailureRaises | mailgunlog/mailgunlog.py:64-65 | A given value with a piece `int()` rejects raises `ValueError` naming the first such piece, before any `datetime` is built. |
| Rfc2822Date.SecondPieceRaises | mailgunlog/mailgunlog.py:64-65 | A value `a/b/c` whose first piece `int()` accepts and whose second it rejects raises `ValueError` naming the second piece, whatever the third. |
| Rfc2822Date.LetterPieceRaises | mailgunlog/mailgunlog.py:64-65 | `2024/ab/01` raises `ValueError` naming `ab`. |
| Rfc2822Date.EmptyPieceRaises | mailgunlog/mailgunlog.py:64-65 | `2024//01` raises `ValueError` naming the empty piece. |
| Rfc2822Date.ThreePieceValue | mailgunlog/mailgunlog.py:64-76 | For a value of three integer pieces y/m/d: the call succeeds exactly when y-m-d is a calendar date. The result shows 00:00:00 with `midnight`, the supplied clock time with `now`, and 23:59:59 otherwise. |
| Rfc2822Date.NoValueUsesClockDate | mailgunlog/mailgunlog.py:64-72 | With no (or an empty) value, the supplied current UTC date is rendered at the mode's time. |
| Rfc2822Date.Construct | mailgunlog/mailgunlog.py:74 | `datetime(*args)` succeeds exactly when there are 3 to 7 arguments and they form a valid date and time. The value then holds them, with 0 for the missing ones. Nothing is clamped. The body raises in CPython's order: more than 9 arguments, then C-int overflow in any of the first seven given, then fewer than 3 arguments, then a ninth positional argument, then the range checks, then an integer `tzinfo`. |
| Rfc2822Date.ReadRender | mailgunlog/mailgunlog.py:76 | The rendered text reads back to the date, hour, minute and second it was printed from: the weekday name matches the date and every field is in its fixed place. |
| Rfc2822Date.FourthPieceIsHour | mailgunlog/mailgunlog.py:65-74 | A four-piece value is accepted. With `midnight`, `datetime` takes the fourth piece as the hour. |
| Rfc2822Date.FivePiecesRaise | mailgunlog/mailgunlog.py:65-74 | A value of five or more pieces always raises. |
| Rfc2822Date.ShortValueRaises | mailgunlog/mailgunlog.py:65-74 | A value of fewer than three pieces always raises with `midnight` or the default time. |
| Rfc2822Date.ConstructionError | mailgunlog/mailgunlog.py:74 | A value whose pieces parse but do not make a `datetime` raises exactly what the constructor raises. |
| Rfc2822Date.MonthThirteenRaises | mailgunlog/mailgunlog.py:74 | `2024/13/01` raises the month range error rather than being clamped. |
| Rfc2822Date.ParseAll | mailgunlog/mailgunlog.py:65 | On success there is one integer per piece, each the piece's `int()` value. It fails exactly when some piece is rejected, and the error names the first rejected piece, where `list(map(int, …))` raises. |
| Rfc2822Date.ParseDateText | mailgunlog/mailgunlog.py:64-65 | A date printed with `%Y/%m/%d` splits and parses back to its year, month and day. |
| Decimal.ParsePadded | mailgunlog/mailgunlog.py:65 | `int()` reads a zero-padded decimal field back to its value. |
| Decimal.PaddedValue | mailgunlog/mailgunlog.py:76 | A zero-padded `strftime` field has the value it was printed from. |
| Strings.JoinSplit | mailgunlog/mailgunlog.py:65 | Joining the pieces of `split('/')` with `/` gives back the text. |
| Strings.SplitJoin | mailgunlog/mailgunlog.py:65 | Splitting a join of separator-free pieces gives back those pieces. |
| Calendar.DaysBeforeYearAgrees | mailgunlog/mailgunlog.py:74-76 | The closed-form count of days before a year equals the count taken year by year over leap and common years. |
| Calendar.DaysBeforeMonthAgrees | mailgunlog/mailgunlog.py:74-76 | The table of days before a month equals the count taken month by month. |
| Calendar.NextDayWeekday | mailgunlog/mailgunlog.py:76 | Consecutive dates have consecutive weekdays, so `%a` advances one name per day. |
| Calendar.OrdinalBounds | mailgunlog/mailgunlog.py:74 | Every valid date's ordinal lies between those of 0001-01-01 and 9999-12-31, and reaches each end only at that date. |
| Calendar.ShiftDaysOrdinal | mailgunlog/mailgunlog.py:133 | Subtracting N days fails exactly when the target falls outside years 1-9999. Otherwise it moves the day ordinal by exactly N. |
| Window.DaysWindow | mailgunlog/mailgunlog.py:132-135 | With `--days N`: the window exists exactly when the day N days before the local date is representable. It then begins at midnight of that day and ends at 23:59:59 of the current UTC date. |
| Window.ExplicitWindow | mailgunlog/mailgunlog.py:136-138 | Without `--days`: a given `--begin` date is taken at midnight, a given `--end` date at the current UTC time of day, and an option not given leaves that side open. |
| TextLine.SuccessIgnoresCase | mailgunlog/mailgunlog.py:177-178 | A record counts as a success exactly when its event is `accepted` or `delivered` with any of its ASCII letters in upper case. |
| TextLine.UpperIsCaseVariant | mailgunlog/mailgunlog.py:177 | For a lower-case word w, `e.upper() == w.upper()` exactly when e is w with any of its letters upper-cased. |
| TextLine.LineLayout | mailgunlog/mailgunlog.py:177-182 | The line starts with `[time] STATUS <recipient>` and ends with `: subject`. The ` (reason)` part sits between them exactly when the event is not a success. The reason is the delivery status's description, or its message when the description is missing or empty. |
| TextLine.EmptyRecordLine | mailgunlog/mailgunlog.py:177-182 | A record whose only field is its timestamp prints an empty status, recipient, reason and subject, with the reason in parentheses. |
| TextLine.DeliveredWithoutSubject | mailgunlog/mailgunlog.py:177-182 | A `delivered` record with no subject has status `DELIVERED` and no reason part, and its line ends in `: `. |
| EventLog.QueryParams | mailgunlog/mailgunlog.py:17-30 | The parameters hold one to four entries, since `end` or `ascending` is always sent. Every key is one of `begin`, `end`, `ascending`, `severity` and `event`, and no key occurs twice. |
| Rfc2822Date.Render | mailgunlog/mailgunlog.py:76 | The text is 31 characters long and ends with ` -0000`. `Rfc2822Date.ReadRender` shows what it holds. |
| Rfc2822Date.FirstRejected | mailgunlog/mailgunlog.py:65 | The position found is the first piece `int()` rejects: every piece before it parses and the piece there does not. |
| Window.ResolveWindow | mailgunlog/mailgunlog.py:131-138 | With `--days`, both sides of the window are set. Without it, each side is set exactly when its option was given with a non-empty text. Every side that is set is a 31-character text ending with ` -0000`. |
| Decimal.ParseInt | mailgunlog/mailgunlog.py:65 | A plain run of decimal digits is read as its value when it has between 1 and 4300 digits, and refused when it has more. An empty or all-blank text is refused, and so is any text holding a character that is not a digit, white space, a sign or an underscore. |
| Decimal.SeparatorIsNotSpace | mailgunlog/mailgunlog.py:65 | `int()` skips only tab, line feed, vertical tab, form feed, carriage return and space around a numeral, so a numeral next to an ASCII information separator (0x1C or 0x1F) is refused. |
| Strings.Split | mailgunlog/mailgunlog.py:65 | `split('/')` gives at least one piece and no piece contains `/`. `Strings.JoinSplit` and `Strings.SplitJoin` show that it cuts the text exactly at each `/`. |
| Strings.Upper | mailgunlog/mailgunlog.py:177 | Upper-casing keeps the length and maps each character on its own, ASCII letters to upper case. |
| Calendar.ShiftDays | mailgunlog/mailgunlog.py:133 | Any date a shift gives is a valid date. `Calendar.ShiftDaysOrdinal` shows which date it is. |
| TextLine.Line | mailgunlog/mailgunlog.py:177-182 | The line starts with `[time] STATUS <recipient>` and ends with `: ` and the subject. |

## Left out

- The HTTP client, Basic authentication, `response.json()` and the verbose
  messages on stderr (lines 33-42). A finite script of decoded responses
  stands in for the server. `ok` is derived from the status code as the
  `requests` library does (not 400-599).
- EventLog.Logs: the generator is lazy and its consumer could stop early. The
  model runs it to the end of the script. When the script runs out while the
  loop would still request a page, the outcome `Exhausted` is reported. That
  outcome only exists because the script is finite.
- EventLog.Logs: a page whose `items` or `paging` key is missing, or not a
  list or dictionary, is not modelled. A missing `paging.next` is modelled
  (it raises `KeyError`). A `paging.next` that is present but `null` is not:
  Python then sets `url` to `None` (line 49), and the next `requests.get`
  raises.
- The argument parser, the version print and the environment-variable
  fallback with `sys.exit(1)` (lines 80-127, 145-163). These are command-line
  and environment glue. Note that a missing domain also prints "Missing
  mailgun API key" (line 153).
- `datetime.utcnow()` and `date.today()` are parameters of the model, not
  clock reads. The two `utcnow()` calls of one `strdate_to_rfc2822` run are
  taken to return the same instant.
- `time.mktime(date.utctimetuple())` (line 75). It depends on the local
  time zone and its result is unused. Its `OverflowError` for dates the
  platform's `mktime` cannot represent is not modelled either.
- `datetime.utcfromtimestamp(...)` in the text line (line 179). The
  bracketed timestamp text is an input of `TextLine.Line`. A record without
  a `timestamp` field makes `utcfromtimestamp('')` raise `TypeError` before
  any line is built; the model does not capture that failure.
- The JSON aggregation and `json.dumps` output (lines 129, 140-143, 151, 175,
  185-186), and printing each line (line 183). These are output formatting.
- Decimal.ParseInt: only ASCII whitespace, ASCII digits and single
  underscores between digits are modelled. Python's `int()` also accepts
  other Unicode digits and spaces.
- Decimal.ParseInt: the 4300-digit limit is the default of Python 3.11 and
  later, and of the releases it was added to as a security fix (3.7.14,
  3.8.14, 3.9.14 and 3.10.7). It can be changed with
  `PYTHONINTMAXSTRDIGITS` or `sys.set_int_max_str_digits`, and releases
  before those have no limit; neither is modelled.
- Strings.Upper: only ASCII letters are upper-cased. Python's `str.upper()`
  also maps other letters, some to several characters.
- TextLine.SuccessIgnoresCase: holds over ASCII only. In Python, `'ı'.upper()`
  (U+0131) is `'I'`, so `delıvered` counts as a success, but not in the
  model.
- Rfc2822Date.Render: `%Y` is printed as four zero-padded digits, as CPython
  3.13 and later do on every platform. Earlier versions pass `%Y` to the C
  library, and glibc prints years below 1000 without padding (year 42 as
  `42`).
- TextLine.Line: every record field is either absent or a string. Fields
  that are present but `null` or of another JSON type are not modelled.
  For `event`, and for a `delivery-status`, `message` or `headers` that is not
  an object, Python raises (`None.upper()`, `None.get`). For `recipient`,
  `subject` and the delivery status's `description` and `message`, `'%s'`
  prints `str(value)` (`None` for `null`); a `null` or otherwise falsy
  description falls through to the message (line 181).
