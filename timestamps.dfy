/**
 * The two java.time text formats the exporter touches: parsing with
 * DateTimeFormatter.ISO_OFFSET_DATE_TIME (what OffsetDateTime.parse uses), and printing
 * with the patterns "yyyyMMdd'T'HHmmss'Z'", "HH:mm" and BASIC_ISO_DATE.
 */
module Timestamps {
  import opened Wrappers
  import opened Text
  import opened CivilTime

  /** An OffsetDateTime: a local date-time and its offset from UTC in seconds. */
  datatype OffsetDateTime = OffsetDateTime(local: DateTime, offsetSeconds: int)

  /** ZoneOffset's bound: offsets lie within -18:00 .. +18:00. */
  const MAX_OFFSET_SECONDS: int := 18 * 3600

  predicate DigitsAt(s: string, from: nat, to: nat)
  {
    from <= to <= |s| && AllDigits(s[from..to])
  }

  /** The number of ASCII digits at the start of `s`. */
  function LeadingDigits(s: string): (n: nat)
    ensures n <= |s| && AllDigits(s[..n])
    ensures n < |s| ==> !IsDigit(s[n])
  {
    if s != [] && IsDigit(s[0]) then
      var n := 1 + LeadingDigits(s[1..]);
      assert s[..n] == [s[0]] + s[1..][..n - 1];
      n
    else 0
  }

  /**
   * The offset part: "Z" or "z" (the formatter is case-insensitive), or a sign and HH with an
   * optional :MM and, after it, an optional :SS (the offset is parsed leniently, so only the
   * hours are mandatory and the colons are); minutes and seconds below 60 and the total within
   * 18 hours.
   */
  function ParseOffset(s: string): (r: Option<int>)
    ensures r.Some? ==> -MAX_OFFSET_SECONDS <= r.value <= MAX_OFFSET_SECONDS
    ensures |s| == 3 && (s[0] == '+' || s[0] == '-') && DigitsAt(s, 1, 3) && ParseNat(s[1..3]) <= 18 ==>
              var hours: int := ParseNat(s[1..3]);
              r == Some(if s[0] == '-' then -hours * 3600 else hours * 3600)
  {
    if s == "Z" || s == "z" then Some(0)
    else if (|s| == 3 || |s| == 6 || |s| == 9) && (s[0] == '+' || s[0] == '-') && DigitsAt(s, 1, 3)
            && (|s| >= 6 ==> s[3] == ':' && DigitsAt(s, 4, 6))
            && (|s| == 9 ==> s[6] == ':' && DigitsAt(s, 7, 9)) then
      var hours := ParseNat(s[1..3]);
      var minutes := if |s| >= 6 then ParseNat(s[4..6]) else 0;
      var seconds := if |s| == 9 then ParseNat(s[7..9]) else 0;
      var total := hours * 3600 + minutes * 60 + seconds;
      if minutes > 59 || seconds > 59 || total > MAX_OFFSET_SECONDS then None
      else Some(if s[0] == '-' then -total else total)
    else None
  }

  /**
   * What follows HH:mm in ISO_LOCAL_TIME: an optional ":ss" and, only after it, an optional
   * '.' with up to nine fraction digits (the fraction is read and dropped: no format prints it).
   * Returns the seconds and the unread rest.
   */
  function ParseSecondsPart(s: string): (r: (int, string))
    ensures 0 <= r.0 < 100 && |r.1| <= |s|
  {
    if |s| >= 3 && s[0] == ':' && DigitsAt(s, 1, 3) then
      var rest := s[3..];
      var afterFraction :=
        if rest != [] && rest[0] == '.' then
          var n := LeadingDigits(rest[1..]);
          rest[1 + (if n > 9 then 9 else n)..]
        else rest;
      assert ParseNat(s[1..3]) < 100 by { ParseTwoDigitsBound(s[1..3]); }
      (ParseNat(s[1..3]), afterFraction)
    else (0, s)
  }

  lemma ParseTwoDigitsBound(s: string)
    requires |s| == 2 && AllDigits(s)
    ensures ParseNat(s) < 100
  {
    ParseNatBound(s);
  }

  /**
   * OffsetDateTime.parse: "uuuu-MM-dd'T'HH:mm[:ss[.fraction]]" followed by an offset, under
   * the STRICT resolver (month 1..12, a day that exists in that month, hour 0..23, minute and
   * second 0..59). Years are read as exactly four digits.
   */
  function ParseOffsetDateTime(s: string): (r: Option<OffsetDateTime>)
    ensures r.Some? ==> ValidDateTime(r.value.local)
    ensures r.Some? ==> -MAX_OFFSET_SECONDS <= r.value.offsetSeconds <= MAX_OFFSET_SECONDS
    ensures r.Some? ==> 0 <= r.value.local.date.year <= 9999
  {
    if |s| < 16 || !DigitsAt(s, 0, 4) || s[4] != '-' || !DigitsAt(s, 5, 7) || s[7] != '-'
       || !DigitsAt(s, 8, 10) || (s[10] != 'T' && s[10] != 't')
       || !DigitsAt(s, 11, 13) || s[13] != ':' || !DigitsAt(s, 14, 16) then None
    else
      var year := ParseNat(s[0..4]);
      var month := ParseNat(s[5..7]);
      var day := ParseNat(s[8..10]);
      var hour := ParseNat(s[11..13]);
      var minute := ParseNat(s[14..16]);
      var (second, rest) := ParseSecondsPart(s[16..]);
      var offset :- ParseOffset(rest);
      var local := DateTime(Date(year, month, day), hour, minute, second);
      if !ValidDateTime(local) then None
      else
        assert year <= 9999 by { ParseFourDigitsBound(s[0..4]); }
        Some(OffsetDateTime(local, offset))
  }

  lemma ParseFourDigitsBound(s: string)
    requires |s| == 4 && AllDigits(s)
    ensures ParseNat(s) <= 9999
  {
    ParseNatBound(s);
  }

  /** withOffsetSameInstant(UTC): the same instant read on the UTC clock. */
  function ToUtc(t: OffsetDateTime): (r: DateTime)
    requires ValidDateTime(t.local) && -MAX_OFFSET_SECONDS <= t.offsetSeconds <= MAX_OFFSET_SECONDS
    ensures ValidDateTime(r)
    ensures ShiftSeconds(r, t.offsetSeconds) == t.local
  {
    ShiftRoundTrip(t.local, -t.offsetSeconds);
    ShiftSeconds(t.local, -t.offsetSeconds)
  }

  /** At offset zero the UTC clock reads the local date-time unchanged. */
  lemma ToUtcAtZero(t: DateTime)
    requires ValidDateTime(t)
    ensures ToUtc(OffsetDateTime(t, 0)) == t
  {
    ShiftZero(t);
  }

  /** Pattern "yyyy": year-of-era, at least four digits, a '+' once it needs a fifth. */
  function YearOfEraText(year: int): (r: string)
    ensures 1 <= year <= 9999 ==> r == Pad(year, 4)
  {
    var yoe: nat := if year >= 1 then year else 1 - year;
    if yoe >= 10000 then "+" + Digits(yoe) else Pad(yoe, 4)
  }

  /** Pattern "yyyyMMdd'T'HHmmss'Z'", the form of DTSTAMP and of timed DTSTART/DTEND. */
  function IcsDateTime(t: DateTime): string
    requires ValidDateTime(t)
  {
    YearOfEraText(t.date.year) + Pad(t.date.month, 2) + Pad(t.date.day, 2) + "T"
      + Pad(t.hour, 2) + Pad(t.minute, 2) + Pad(t.second, 2) + "Z"
  }

  /** For years 1..9999 the text is sixteen characters, and each field reads back as the instant's. */
  lemma IcsDateTimeFields(t: DateTime)
    requires ValidDateTime(t) && 1 <= t.date.year <= 9999
    ensures StampReadsBack(IcsDateTime(t), t)
  {
    ParsePad(t.date.year, 4);
    ParsePad(t.date.month, 2);
    ParsePad(t.date.day, 2);
    ParsePad(t.hour, 2);
    ParsePad(t.minute, 2);
    ParsePad(t.second, 2);
    StampLayout(Pad(t.date.year, 4), Pad(t.date.month, 2), Pad(t.date.day, 2),
                Pad(t.hour, 2), Pad(t.minute, 2), Pad(t.second, 2));
  }

  /** `r` has the ICS form yyyyMMdd'T'HHmmss'Z' and its fields read back as those of `t`. */
  predicate StampReadsBack(r: string, t: DateTime)
  {
    |r| == 16 && r[8] == 'T' && r[15] == 'Z'
    && AllDigits(r[..4]) && AllDigits(r[4..6]) && AllDigits(r[6..8])
    && AllDigits(r[9..11]) && AllDigits(r[11..13]) && AllDigits(r[13..15])
    && ParseNat(r[..4]) == t.date.year && ParseNat(r[4..6]) == t.date.month && ParseNat(r[6..8]) == t.date.day
    && ParseNat(r[9..11]) == t.hour && ParseNat(r[11..13]) == t.minute && ParseNat(r[13..15]) == t.second
  }

  lemma StampLayout(y: string, mo: string, d: string, h: string, mi: string, sec: string)
    requires |y| == 4 && |mo| == 2 && |d| == 2 && |h| == 2 && |mi| == 2 && |sec| == 2
    requires AllDigits(y) && AllDigits(mo) && AllDigits(d) && AllDigits(h) && AllDigits(mi) && AllDigits(sec)
    ensures var r := y + mo + d + "T" + h + mi + sec + "Z";
      |r| == 16 && r[8] == 'T' && r[15] == 'Z' && AllDigits(r[..8]) && AllDigits(r[9..15])
      && r[..4] == y && r[4..6] == mo && r[6..8] == d && r[9..11] == h && r[11..13] == mi && r[13..15] == sec
  {
    var r := y + mo + d + "T" + h + mi + sec + "Z";
    assert r[..8] == y + mo + d;
    assert r[9..15] == h + mi + sec;
  }

  /** Pattern "HH:mm": the hour and the minute in two digits each. */
  function HourMinute(t: DateTime): (r: string)
    requires ValidDateTime(t)
    ensures |r| == 5 && r[2] == ':' && AllDigits(r[..2]) && AllDigits(r[3..])
    ensures ParseNat(r[..2]) == t.hour && ParseNat(r[3..]) == t.minute
  {
    ParsePad(t.hour, 2);
    ParsePad(t.minute, 2);
    var r := Pad(t.hour, 2) + ":" + Pad(t.minute, 2);
    assert r[..2] == Pad(t.hour, 2) && r[3..] == Pad(t.minute, 2);
    r
  }

  /**
   * DateTimeFormatter.BASIC_ISO_DATE applied to a date: "yyyyMMdd" with the year in exactly
   * four digits; a year below 0 or above 9999 cannot be printed and the formatter throws.
   */
  function BasicIsoDate(d: Date): (r: Option<string>)
    requires ValidDate(d)
    ensures r.Some? <==> 0 <= d.year <= 9999
    ensures r.Some? ==> |r.value| == 8 && AllDigits(r.value) && ParseNat(r.value[..4]) == d.year
                        && ParseNat(r.value[4..6]) == d.month && ParseNat(r.value[6..]) == d.day
  {
    if 0 <= d.year <= 9999 then
      ParsePad(d.year, 4);
      ParsePad(d.month, 2);
      ParsePad(d.day, 2);
      var text := Pad(d.year, 4) + Pad(d.month, 2) + Pad(d.day, 2);
      assert text[..4] == Pad(d.year, 4) && text[4..6] == Pad(d.month, 2) && text[6..] == Pad(d.day, 2);
      Some(text)
    else None
  }
}
