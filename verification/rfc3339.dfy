/**
  The timestamp text every new queue item carries: Go's `time.RFC3339`
  layout "2006-01-02T15:04:05Z07:00". This is a subset of the `date-time`
  production of section 5.6 of RFC 3339: upper-case T and Z, a four-digit
  year, seconds 00-59 (no leap second 60), no fractional seconds. The clock reading
  itself is an input (an `Instant`); what is modelled is the formatting,
  a parser for the same text, and that the two are inverse.
*/
module Rfc3339 {
  import opened Wrappers

  /** A civil date and time together with its offset east of UTC, in minutes. */
  datatype Instant = Instant(year: int, month: int, day: int,
                             hour: int, minute: int, second: int,
                             offset: int)

  predicate LeapYear(y: int) {
    y % 4 == 0 && (y % 100 != 0 || y % 400 == 0)
  }

  function DaysInMonth(y: int, m: int): int
    requires 1 <= m <= 12
  {
    if m == 2 then (if LeapYear(y) then 29 else 28)
    else if m == 4 || m == 6 || m == 9 || m == 11 then 30
    else 31
  }

  /** The instants the layout prints with its fixed field widths. */
  predicate Valid(t: Instant) {
    && 0 <= t.year <= 9999
    && 1 <= t.month <= 12
    && 1 <= t.day <= DaysInMonth(t.year, t.month)
    && 0 <= t.hour <= 23
    && 0 <= t.minute <= 59
    && 0 <= t.second <= 59
    && -1440 < t.offset < 1440
  }

  // ---------------------------------------------------------------------
  // Digits
  // ---------------------------------------------------------------------

  predicate IsDigit(c: char) {
    '0' <= c <= '9'
  }

  function Digit(d: int): (c: char)
    requires 0 <= d <= 9
  {
    ('0' as int + d) as char
  }

  function DigitValue(c: char): int {
    c as int - '0' as int
  }

  /** The number written by the two decimal digits `hi` and `lo`. */
  function Two(hi: char, lo: char): int {
    10 * DigitValue(hi) + DigitValue(lo)
  }

  lemma TwoDigits(n: int)
    requires 0 <= n <= 99
    ensures IsDigit(Digit(n / 10)) && IsDigit(Digit(n % 10))
    ensures Two(Digit(n / 10), Digit(n % 10)) == n
  {
  }

  lemma DigitsOfTwo(hi: char, lo: char)
    requires IsDigit(hi) && IsDigit(lo)
    ensures 0 <= Two(hi, lo) <= 99
    ensures Digit(Two(hi, lo) / 10) == hi && Digit(Two(hi, lo) % 10) == lo
  {
  }

  // ---------------------------------------------------------------------
  // Formatting
  // ---------------------------------------------------------------------

  /** "yyyy-mm-dd", every field zero-padded. */
  function DatePart(t: Instant): string
    requires Valid(t)
  {
    var hi, lo := t.year / 100, t.year % 100;
    [Digit(hi / 10), Digit(hi % 10), Digit(lo / 10), Digit(lo % 10), '-',
     Digit(t.month / 10), Digit(t.month % 10), '-',
     Digit(t.day / 10), Digit(t.day % 10)]
  }

  /** "hh:mm:ss", every field zero-padded. */
  function TimePart(t: Instant): string
    requires Valid(t)
  {
    [Digit(t.hour / 10), Digit(t.hour % 10), ':',
     Digit(t.minute / 10), Digit(t.minute % 10), ':',
     Digit(t.second / 10), Digit(t.second % 10)]
  }

  /** "Z" for UTC, otherwise the numeric offset "+hh:mm" or "-hh:mm". */
  function Zone(offset: int): string
    requires -1440 < offset < 1440
  {
    if offset == 0 then "Z"
    else
      var a := if offset < 0 then -offset else offset;
      var h, m := a / 60, a % 60;
      [if offset < 0 then '-' else '+', Digit(h / 10), Digit(h % 10), ':', Digit(m / 10), Digit(m % 10)]
  }

  /** The text `time.Time.Format(time.RFC3339)` produces for `t`: 20 characters in UTC, 25 with a numeric offset. */
  function Format(t: Instant): (s: string)
    requires Valid(t)
    ensures |s| == (if t.offset == 0 then 20 else 25)
    ensures s[10] == 'T' && (s[|s| - 1] == 'Z' <==> t.offset == 0)
  {
    DatePart(t) + "T" + TimePart(t) + Zone(t.offset)
  }

  // ---------------------------------------------------------------------
  // Parsing
  // ---------------------------------------------------------------------

  /** The `full-date` of RFC 3339, "yyyy-mm-dd", as year, month and day. */
  function ParseDate(d: string): Option<(int, int, int)> {
    if |d| == 10 && d[4] == '-' && d[7] == '-'
       && IsDigit(d[0]) && IsDigit(d[1]) && IsDigit(d[2]) && IsDigit(d[3])
       && IsDigit(d[5]) && IsDigit(d[6]) && IsDigit(d[8]) && IsDigit(d[9]) then
      Some((100 * Two(d[0], d[1]) + Two(d[2], d[3]), Two(d[5], d[6]), Two(d[8], d[9])))
    else None
  }

  /** The `partial-time` of RFC 3339 without fractional seconds, "hh:mm:ss". */
  function ParseTime(h: string): Option<(int, int, int)> {
    if |h| == 8 && h[2] == ':' && h[5] == ':'
       && IsDigit(h[0]) && IsDigit(h[1]) && IsDigit(h[3])
       && IsDigit(h[4]) && IsDigit(h[6]) && IsDigit(h[7]) then
      Some((Two(h[0], h[1]), Two(h[3], h[4]), Two(h[6], h[7])))
    else None
  }

  /** The `time-offset` of RFC 3339: "Z", or a sign, hours 00-23, ':' and minutes 00-59. */
  function ParseZone(z: string): Option<int> {
    if z == "Z" then Some(0)
    else if |z| == 6 && (z[0] == '+' || z[0] == '-') && z[3] == ':'
            && IsDigit(z[1]) && IsDigit(z[2]) && IsDigit(z[4]) && IsDigit(z[5])
            && Two(z[1], z[2]) <= 23 && Two(z[4], z[5]) <= 59 then
      var m := 60 * Two(z[1], z[2]) + Two(z[4], z[5]);
      Some(if z[0] == '-' then -m else m)
    else None
  }

  /** Reads back a timestamp in the layout; `None` for any other text and for an impossible date or time. */
  function Parse(s: string): (r: Option<Instant>)
    ensures r.Some? ==> Valid(r.value)
  {
    if |s| < 19 || s[10] != 'T' then None
    else
      match (ParseDate(s[..10]), ParseTime(s[11..19]), ParseZone(s[19..]))
      case (Some((y, mo, d)), Some((h, mi, sec)), Some(offset)) =>
        var t := Instant(y, mo, d, h, mi, sec, offset);
        if Valid(t) then Some(t) else None
      case _ => None
  }

  // ---------------------------------------------------------------------
  // Parse after Format
  // ---------------------------------------------------------------------

  lemma DateRoundTrip(t: Instant)
    requires Valid(t)
    ensures ParseDate(DatePart(t)) == Some((t.year, t.month, t.day))
  {
    TwoDigits(t.year / 100);
    TwoDigits(t.year % 100);
    TwoDigits(t.month);
    TwoDigits(t.day);
  }

  lemma TimeRoundTrip(t: Instant)
    requires Valid(t)
    ensures ParseTime(TimePart(t)) == Some((t.hour, t.minute, t.second))
  {
    TwoDigits(t.hour);
    TwoDigits(t.minute);
    TwoDigits(t.second);
  }

  lemma ZoneRoundTrip(offset: int)
    requires -1440 < offset < 1440
    ensures ParseZone(Zone(offset)) == Some(offset)
  {
    if offset != 0 {
      var a := if offset < 0 then -offset else offset;
      TwoDigits(a / 60);
      TwoDigits(a % 60);
    }
  }

  /** Formatting loses nothing: the text of a valid instant parses back to that instant. */
  lemma ParseFormat(t: Instant)
    requires Valid(t)
    ensures Parse(Format(t)) == Some(t)
  {
    var s := Format(t);
    DateRoundTrip(t);
    TimeRoundTrip(t);
    ZoneRoundTrip(t.offset);
    assert s[..10] == DatePart(t);
    assert s[11..19] == TimePart(t);
    assert s[19..] == Zone(t.offset);
  }

  // ---------------------------------------------------------------------
  // Format after Parse
  // ---------------------------------------------------------------------

  lemma DateFormatParse(t: Instant, d: string)
    requires Valid(t) && ParseDate(d) == Some((t.year, t.month, t.day))
    ensures DatePart(t) == d
  {
    DigitsOfTwo(d[0], d[1]);
    DigitsOfTwo(d[2], d[3]);
    DigitsOfTwo(d[5], d[6]);
    DigitsOfTwo(d[8], d[9]);
    var hi, lo := Two(d[0], d[1]), Two(d[2], d[3]);
    assert t.year / 100 == hi && t.year % 100 == lo;
  }

  lemma TimeFormatParse(t: Instant, h: string)
    requires Valid(t) && ParseTime(h) == Some((t.hour, t.minute, t.second))
    ensures TimePart(t) == h
  {
    DigitsOfTwo(h[0], h[1]);
    DigitsOfTwo(h[3], h[4]);
    DigitsOfTwo(h[6], h[7]);
  }

  lemma ZoneFormatParse(offset: int, z: string)
    requires -1440 < offset < 1440 && ParseZone(z) == Some(offset)
    requires z != "+00:00" && z != "-00:00"
    ensures Zone(offset) == z
  {
    if z != "Z" {
      DigitsOfTwo(z[1], z[2]);
      DigitsOfTwo(z[4], z[5]);
      var h, m := Two(z[1], z[2]), Two(z[4], z[5]);
      assert (60 * h + m) / 60 == h && (60 * h + m) % 60 == m;
      assert offset != 0;
    }
  }

  /**
    The parser accepts nothing the formatter would write differently, save
    the "+00:00" and "-00:00" spellings of UTC where the layout writes "Z".
    (The other RFC 3339 forms the layout never writes, such as lower-case
    "t" and "z", a leap second or fractional seconds, the parser rejects.)
  */
  lemma FormatParse(s: string)
    requires Parse(s).Some?
    requires s[19..] != "+00:00" && s[19..] != "-00:00"
    ensures Format(Parse(s).value) == s
  {
    var t := Parse(s).value;
    DateFormatParse(t, s[..10]);
    TimeFormatParse(t, s[11..19]);
    ZoneFormatParse(t.offset, s[19..]);
    assert s == s[..10] + "T" + s[11..19] + s[19..];
  }
}
