/**
 The UTC offset handed to the natal-chart library (chart_engine.py,
 `generate_chart`): `strftime("%z")` gives a raw `+HHMM`/`-HHMM` string and
 the source turns it into `+HH:MM`/`-HH:MM` by slicing around a colon.
 */
module UtcOffset {
  import opened Wrappers

  /** Python's `s[:n]` for a non-negative n: the whole string when it is shorter. */
  function Prefix(s: string, n: nat): (r: string)
    ensures |r| == if |s| < n then |s| else n
    ensures r <= s
  {
    if |s| <= n then s else s[..n]
  }

  /** Python's `s[n:]` for a non-negative n: empty when s is shorter. */
  function Suffix(s: string, n: nat): (r: string)
    ensures Prefix(s, n) + r == s
  {
    if |s| <= n then [] else s[n..]
  }

  /** Where the colon lands: after the first three characters, or at the end of a shorter string. */
  function ColonIndex(raw: string): nat
  {
    if |raw| < 3 then |raw| else 3
  }

  /** `f"{offset_raw[:3]}:{offset_raw[3:]}"`. */
  function InsertColon(raw: string): (r: string)
    ensures |r| == |raw| + 1
    ensures r[ColonIndex(raw)] == ':'
    // deleting that colon gives back the raw string
    ensures r[..ColonIndex(raw)] + r[ColonIndex(raw) + 1..] == raw
  {
    Prefix(raw, 3) + ":" + Suffix(raw, 3)
  }

  predicate IsDigit(c: char)
  {
    '0' <= c <= '9'
  }

  predicate IsSign(c: char)
  {
    c == '+' || c == '-'
  }

  /** The `%z` shape: a sign and four digits. */
  predicate IsRawOffset(s: string)
  {
    |s| == 5 && IsSign(s[0]) && IsDigit(s[1]) && IsDigit(s[2]) && IsDigit(s[3]) && IsDigit(s[4])
  }

  /** The shape the chart library reads: a sign, two digits, a colon, two digits. */
  predicate IsColonOffset(s: string)
  {
    |s| == 6 && IsSign(s[0]) && IsDigit(s[1]) && IsDigit(s[2]) && s[3] == ':' && IsDigit(s[4]) && IsDigit(s[5])
  }

  /** The slicing turns exactly the well-formed raw offsets into well-formed colon offsets. */
  lemma InsertColonShape(raw: string)
    ensures IsRawOffset(raw) <==> IsColonOffset(InsertColon(raw))
  {
  }

  function Digit(d: nat): (c: char)
    requires d < 10
    ensures IsDigit(c)
  {
    ('0' as int + d) as char
  }

  function DigitValue(c: char): (d: nat)
    requires IsDigit(c)
    ensures d < 10 && Digit(d) == c
  {
    c as int - '0' as int
  }

  /** Zero-padded two-digit decimal. */
  function TwoDigits(n: nat): (s: string)
    requires n < 100
    ensures |s| == 2 && IsDigit(s[0]) && IsDigit(s[1])
    ensures 10 * DigitValue(s[0]) + DigitValue(s[1]) == n
  {
    [Digit(n / 10), Digit(n % 10)]
  }

  /** A UTC offset in whole minutes, as a datetime's `utcoffset()` may report it (strictly under a day). */
  predicate ValidOffset(minutes: int)
  {
    -1440 < minutes < 1440
  }

  /**
   `strftime("%z")` of an aware datetime whose offset is a whole number of
   minutes: `-` for a negative offset and `+` otherwise, then hours and
   minutes of its magnitude.
   */
  function StrftimeZ(minutes: int): (s: string)
    requires ValidOffset(minutes)
    ensures IsRawOffset(s)
    ensures s[0] == '-' <==> minutes < 0
  {
    var sign := if minutes < 0 then '-' else '+';
    var m := if minutes < 0 then -minutes else minutes;
    [sign] + TwoDigits(m / 60) + TwoDigits(m % 60)
  }

  /** Reference `±HH:MM` built directly from the signed offset's hour and minute fields. */
  function ColonOffset(minutes: int): string
    requires ValidOffset(minutes)
  {
    var m := if minutes < 0 then -minutes else minutes;
    [if minutes < 0 then '-' else '+'] + TwoDigits(m / 60) + ":" + TwoDigits(m % 60)
  }

  /** Slicing the `%z` string gives the same text as building `±HH:MM` from the offset's fields. */
  lemma InsertColonMatchesFields(minutes: int)
    requires ValidOffset(minutes)
    ensures InsertColon(StrftimeZ(minutes)) == ColonOffset(minutes)
  {
  }

  /** Reading a `±HH:MM` string back as signed minutes. */
  function ParseColonOffset(s: string): (r: Option<int>)
    ensures r.Some? <==> IsColonOffset(s)
  {
    if !IsColonOffset(s) then None
    else
      var magnitude := 60 * (10 * DigitValue(s[1]) + DigitValue(s[2])) + 10 * DigitValue(s[4]) + DigitValue(s[5]);
      Some(if s[0] == '-' then -magnitude else magnitude)
  }

  /** The offset the chart library reads is the offset the datetime carries. */
  lemma OffsetRoundTrip(minutes: int)
    requires ValidOffset(minutes)
    ensures ParseColonOffset(InsertColon(StrftimeZ(minutes))) == Some(minutes)
  {
  }
}
