/** The clock reading the assistant speaks: `strftime("%I:%M %p")`, a two-digit
    hour 01..12, a two-digit minute and AM or PM. */
module TimeFormat {
  import opened Common

  type Hour = h: int | 0 <= h < 24
  type Minute = m: int | 0 <= m < 60

  /** A local wall-clock reading on the 24-hour clock. */
  datatype Clock = Clock(hour: Hour, minute: Minute)

  predicate IsDigit(c: char)
  {
    '0' <= c <= '9'
  }

  function Digit(d: int): (c: char)
    requires 0 <= d < 10
    ensures IsDigit(c) && c as int - '0' as int == d
  {
    ('0' as int + d) as char
  }

  /** Zero-padded two-digit rendering, as `%I` and `%M` print. */
  function TwoDigits(n: int): (s: string)
    requires 0 <= n < 100
    ensures |s| == 2 && IsDigit(s[0]) && IsDigit(s[1])
    ensures (s[0] as int - '0' as int) * 10 + (s[1] as int - '0' as int) == n
  {
    [Digit(n / 10), Digit(n % 10)]
  }

  /** The hour on the 12-hour dial (`%I`): midnight and noon read 12. */
  function Hour12(h: Hour): (r: int)
    ensures 1 <= r <= 12
    ensures r % 12 == h % 12
  {
    if h % 12 == 0 then 12 else h % 12
  }

  /** `%I:%M %p` */
  function Format(c: Clock): (s: string)
    ensures |s| == 8 && s[2] == ':' && s[5] == ' ' && s[7] == 'M'
    ensures IsDigit(s[0]) && IsDigit(s[1]) && IsDigit(s[3]) && IsDigit(s[4])
    ensures 1 <= DigitPair(s[0], s[1]) <= 12
    ensures DigitPair(s[3], s[4]) == c.minute
    ensures s[6] == 'A' <==> c.hour < 12
    ensures s[6] == 'A' || s[6] == 'P'
  {
    TwoDigits(Hour12(c.hour)) + ":" + TwoDigits(c.minute) + " " + (if c.hour < 12 then "AM" else "PM")
  }

  function DigitPair(a: char, b: char): int
  {
    (a as int - '0' as int) * 10 + (b as int - '0' as int)
  }

  /** Reads a string of the shape `Format` produces back into a clock; any other
      string is refused. */
  function Parse(s: string): (r: Option<Clock>)
    ensures r.Some? ==> |s| == 8
  {
    if |s| != 8 || s[2] != ':' || s[5] != ' ' || s[7] != 'M' then None
    else if !(IsDigit(s[0]) && IsDigit(s[1]) && IsDigit(s[3]) && IsDigit(s[4])) then None
    else if !(s[6] == 'A' || s[6] == 'P') then None
    else
      var h12 := DigitPair(s[0], s[1]);
      var m := DigitPair(s[3], s[4]);
      if !(1 <= h12 <= 12 && m < 60) then None
      else Some(Clock(h12 % 12 + (if s[6] == 'P' then 12 else 0), m))
  }

  /** Every clock reading is recovered from its spoken form. */
  lemma ParseFormat(c: Clock)
    ensures Parse(Format(c)) == Some(c)
  {
    var s := Format(c);
    assert DigitPair(s[0], s[1]) == Hour12(c.hour);
  }

  /** Every string `Parse` accepts is exactly the rendering of what it parsed:
      the format has a single spelling per reading. */
  lemma FormatParse(s: string)
    requires Parse(s).Some?
    ensures Format(Parse(s).value) == s
  {
    var c := Parse(s).value;
    var t := Format(c);
    DigitPairInjective(s[0], s[1], t[0], t[1]);
    DigitPairInjective(s[3], s[4], t[3], t[4]);
    assert t == s;
  }

  lemma DigitPairInjective(a: char, b: char, x: char, y: char)
    requires IsDigit(a) && IsDigit(b) && IsDigit(x) && IsDigit(y)
    requires DigitPair(a, b) == DigitPair(x, y)
    ensures a == x && b == y
  {
  }
}
