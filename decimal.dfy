/** Decimal text: Python's `int(text)` for base 10 and the zero-padded
    numeric fields that `strftime` prints (`%d`, `%m`, `%Y`, `%H`, ...). */
module Decimal {
  import opened Wrappers

  predicate IsDigit(c: char) {
    '0' <= c <= '9'
  }

  predicate AllDigits(s: string) {
    forall i :: 0 <= i < |s| ==> IsDigit(s[i])
  }

  function DigitValue(c: char): nat
    requires IsDigit(c)
  {
    c as int - '0' as int
  }

  function DigitChar(v: nat): (c: char)
    requires v < 10
    ensures IsDigit(c) && DigitValue(c) == v
  {
    ('0' as int + v) as char
  }

  /** The value of a run of digits, most significant first. */
  function DigitsValue(s: string): nat
    requires AllDigits(s)
  {
    if s == [] then 0 else DigitsValue(s[..|s| - 1]) * 10 + DigitValue(s[|s| - 1])
  }

  function Pow10(n: nat): (p: nat)
    ensures p >= 1
  {
    if n == 0 then 1 else 10 * Pow10(n - 1)
  }

  /** The last `width` decimal digits of `n`, zero padded (`'%02d'`, `'%04d'`). */
  function Padded(n: nat, width: nat): (s: string)
    ensures |s| == width && AllDigits(s)
  {
    if width == 0 then [] else Padded(n / 10, width - 1) + [DigitChar(n % 10)]
  }

  /** A number with at most `width` digits is read back from its padded text. */
  lemma {:induction false} PaddedValue(n: nat, width: nat)
    requires n < Pow10(width)
    ensures DigitsValue(Padded(n, width)) == n
  {
    if width > 0 {
      var s := Padded(n, width);
      assert s[..|s| - 1] == Padded(n / 10, width - 1);
      PaddedValue(n / 10, width - 1);
    }
  }

  /** The ASCII white space `int()` skips around a numeral (C's `isspace` in
      the C locale): tab, line feed, vertical tab, form feed, carriage return
      and space. The information separators 0x1C-0x1F are not among them. */
  predicate IsSpace(c: char) {
    (9 <= c as int <= 13) || c == ' '
  }

  /** The text `int()` reads once the white space around it is skipped. */
  function TrimSpace(s: string): (r: string)
    ensures |r| <= |s|
    ensures r != [] ==> !IsSpace(r[0]) && !IsSpace(r[|r| - 1])
    ensures Blank(s) ==> r == []
    ensures forall i :: 0 <= i < |s| && !IsSpace(s[i]) ==> s[i] in r
    decreases |s|
  {
    if s == [] then []
    else if IsSpace(s[0]) then TrimSpace(s[1..])
    else if IsSpace(s[|s| - 1]) then TrimSpace(s[..|s| - 1])
    else s
  }

  /** Text that is empty or only white space. */
  predicate Blank(s: string) {
    forall i :: 0 <= i < |s| ==> IsSpace(s[i])
  }

  /** A character that cannot occur anywhere in a text `int()` accepts: not a
      digit, not white space, not a sign and not an underscore. */
  predicate IsStray(c: char) {
    !(IsDigit(c) || IsSpace(c) || c == '+' || c == '-' || c == '_')
  }

  /** Base-10 digits as `int()` accepts them: digits, with single underscores
      allowed only between two digits. */
  predicate IsNumeral(s: string) {
    && s != []
    && IsDigit(s[0])
    && IsDigit(s[|s| - 1])
    && (forall i :: 0 <= i < |s| ==> IsDigit(s[i]) || s[i] == '_')
    && (forall i :: 0 <= i < |s| - 1 ==> s[i] == '_' ==> s[i + 1] != '_')
  }

  /** The digits of a numeral with its underscores removed. */
  function DropUnderscores(s: string): (r: string)
    requires forall i :: 0 <= i < |s| ==> IsDigit(s[i]) || s[i] == '_'
    ensures AllDigits(r)
    ensures AllDigits(s) ==> r == s
  {
    if s == [] then []
    else if s[0] == '_' then DropUnderscores(s[1..])
    else [s[0]] + DropUnderscores(s[1..])
  }

  /** The default limit on the number of digits `int()` converts in base 10
      (`sys.int_info.default_max_str_digits`). */
  const MaxStrDigits: int := 4300

  /** `int(s)` for a `str` argument: `None` where Python raises `ValueError`,
      including for a numeral of more than `MaxStrDigits` digits. A plain run
      of decimal digits is read as its value exactly when it is within the
      limit; an empty or blank text, or one holding a stray character such as
      a letter, is refused. */
  function ParseInt(s: string): (r: Option<int>)
    ensures AllDigits(s) && 1 <= |s| <= MaxStrDigits ==> r == Some(DigitsValue(s))
    ensures AllDigits(s) && |s| > MaxStrDigits ==> r.None?
    ensures Blank(s) ==> r.None?
    ensures (exists i :: 0 <= i < |s| && IsStray(s[i])) ==> r.None?
  {
    var t := TrimSpace(s);
    if t != [] && (t[0] == '+' || t[0] == '-') then
      var body := t[1..];
      if IsNumeral(body) then Convert(t[0] == '-', DropUnderscores(body)) else None
    else if IsNumeral(t) then Convert(false, DropUnderscores(t))
    else None
  }

  /** The value of a numeral's digits, refused past the digit limit. */
  function Convert(negative: bool, digits: string): Option<int>
    requires AllDigits(digits)
  {
    if |digits| > MaxStrDigits then None
    else
      var v: int := DigitsValue(digits);
      Some(if negative then -v else v)
  }

  /** An information separator is not white space to `int()`: a numeral
      next to one is refused. */
  lemma SeparatorIsNotSpace()
    ensures ParseInt("\U{1C}5").None? && ParseInt("5\U{1F}").None?
  {
    assert IsStray("\U{1C}5"[0]);
    assert IsStray("5\U{1F}"[1]);
  }

  /** `int()` reads a zero-padded field back as the number it was printed from. */
  lemma ParsePadded(n: nat, width: nat)
    requires 1 <= width <= MaxStrDigits && n < Pow10(width)
    ensures ParseInt(Padded(n, width)) == Some(n)
  {
    PaddedValue(n, width);
  }
}
