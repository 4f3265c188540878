/**
 * RosterIcsExporter: the transform from a decoded roster (a JSON object whose "events"
 * list holds duty objects) to iCalendar text (RFC 5545): a VCALENDAR envelope, one VEVENT
 * per duty that has both a start and an end, TEXT escaping, DATE / DATE-TIME values,
 * a COLOR property (RFC 7986) for four duty types, and a description chosen by duty type.
 *
 * Each of jsonToIcs, eventToIcs and buildDescription is a method that appends to a local
 * list of lines, proved equal to a specification function (CalendarText, EventLines,
 * DescriptionText); the promised properties are lemmas about those functions.
 * A Java exception ends the export; here it is a Failure carrying an ExportError.
 */
module IcsExporter {
  import opened Wrappers
  import opened Text
  import opened JsonValue
  import opened CivilTime
  import opened Timestamps

  /** The exceptions that abort an export. */
  datatype ExportError =
    | InvalidTimestamp(text: string)   // OffsetDateTime.parse rejected the text
    | UnknownZone(zoneId: string)      // ZoneId.of rejected the configured zone
    | DateNotPrintable(date: Date)     // BASIC_ISO_DATE cannot print the year

  /** A date-time that exists on the calendar, as every java.time value does. */
  type Instant = t: DateTime | ValidDateTime(t) witness DateTime(Date(1970, 1, 1), 0, 0, 0)

  /**
   * The time-zone database (ZoneId.of plus atZoneSameInstant): the local date-time of a UTC
   * instant in the named zone, or None when the zone id is unknown.
   */
  type ZoneRules = (DateTime, string) -> Option<Instant>

  const COLOR_MAP: map<string, string> :=
    map["FLIGHT" := "#4285F4", "DH" := "#DB4437", "HSBY" := "#F4B400", "A/L" := "#0F9D58"]

  const CRLF: string := "\r\n"

  // ---------------------------------------------------------------------------------
  // TEXT escaping (section 3.3.11 of RFC 5545)
  // ---------------------------------------------------------------------------------

  /** What escaping makes of one character. */
  function EscapeChar(c: char): string
  {
    if c == '\\' then "\\\\"
    else if c == ',' then "\\,"
    else if c == ';' then "\\;"
    else if c == '\n' then "\\n"
    else [c]
  }

  /** Character-by-character escaping: the reference meaning of escapeIcs. */
  function EscapeText(s: string): string
  {
    if s == [] then [] else EscapeChar(s[0]) + EscapeText(s[1..])
  }

  /** escapeIcs as written: four String.replace calls, backslashes first; null gives "". */
  function ReplaceChain(s: string): string
  {
    ReplaceChar(ReplaceChar(ReplaceChar(ReplaceChar(s, '\\', "\\\\"), ',', "\\,"), ';', "\\;"), '\n', "\\n")
  }

  function EscapeIcs(text: Option<string>): (r: string)
    ensures text.None? ==> r == ""
  {
    if text.None? then "" else ReplaceChain(text.value)
  }

  lemma ChainConcat(a: string, b: string)
    ensures ReplaceChain(a + b) == ReplaceChain(a) + ReplaceChain(b)
  {
    ReplaceConcat(a, b, '\\', "\\\\");
    var a1, b1 := ReplaceChar(a, '\\', "\\\\"), ReplaceChar(b, '\\', "\\\\");
    ReplaceConcat(a1, b1, ',', "\\,");
    var a2, b2 := ReplaceChar(a1, ',', "\\,"), ReplaceChar(b1, ',', "\\,");
    ReplaceConcat(a2, b2, ';', "\\;");
    var a3, b3 := ReplaceChar(a2, ';', "\\;"), ReplaceChar(b2, ';', "\\;");
    ReplaceConcat(a3, b3, '\n', "\\n");
  }

  lemma ReplaceOne(c: char, x: char, r: string)
    ensures ReplaceChar([c], x, r) == if c == x then r else [c]
  {
    assert [c][1..] == [];
  }

  lemma ChainSingle(c: char)
    ensures ReplaceChain([c]) == EscapeChar(c)
  {
    ReplaceOne(c, '\\', "\\\\");
    var s1 := ReplaceChar([c], '\\', "\\\\");
    assert s1 == if c == '\\' then "\\\\" else [c];
    if c == '\\' {
      ReplaceAbsent(s1, ',', "\\,");
      ReplaceAbsent(s1, ';', "\\;");
      ReplaceAbsent(s1, '\n', "\\n");
    } else if c == ',' {
      ReplaceOne(c, ',', "\\,");
      var s2 := "\\,";
      ReplaceAbsent(s2, ';', "\\;");
      ReplaceAbsent(s2, '\n', "\\n");
    } else if c == ';' {
      ReplaceOne(c, ',', "\\,");
      ReplaceOne(c, ';', "\\;");
      ReplaceAbsent("\\;", '\n', "\\n");
    } else {
      ReplaceOne(c, ',', "\\,");
      ReplaceOne(c, ';', "\\;");
      ReplaceOne(c, '\n', "\\n");
    }
  }

  /** The four sequential replacements amount to escaping each character on its own. */
  lemma {:induction false} EscapeIcsIsCharwise(s: string)
    ensures EscapeIcs(Some(s)) == EscapeText(s)
  {
    if s != [] {
      assert s == [s[0]] + s[1..];
      ChainConcat([s[0]], s[1..]);
      ChainSingle(s[0]);
      EscapeIcsIsCharwise(s[1..]);
    }
  }

  /** An escaped text holds no line feed, so it stays on its content line. */
  lemma {:induction false} EscapeHasNoLineFeed(s: string)
    ensures '\n' !in EscapeIcs(Some(s))
  {
    EscapeIcsIsCharwise(s);
    EscapeTextHasNoLineFeed(s);
  }

  lemma {:induction false} EscapeTextHasNoLineFeed(s: string)
    ensures '\n' !in EscapeText(s)
  {
    if s != [] {
      EscapeTextHasNoLineFeed(s[1..]);
    }
  }

  /** Reading a TEXT value back: the four escapes decoded, any other backslash rejected. */
  function Unescape(s: string): Option<string>
    decreases |s|
  {
    if s == [] then Some([])
    else if s[0] != '\\' then
      var rest :- Unescape(s[1..]);
      Some([s[0]] + rest)
    else if |s| >= 2 && (s[1] == '\\' || s[1] == ',' || s[1] == ';' || s[1] == 'n') then
      var rest :- Unescape(s[2..]);
      Some([if s[1] == 'n' then '\n' else s[1]] + rest)
    else None
  }

  /** Escaping loses nothing: decoding the escapes recovers the original text. */
  lemma {:induction false} EscapeRoundTrip(s: string)
    ensures Unescape(EscapeIcs(Some(s))) == Some(s)
  {
    EscapeIcsIsCharwise(s);
    UnescapeEscapeText(s);
  }

  lemma {:induction false} UnescapeEscapeText(s: string)
    ensures Unescape(EscapeText(s)) == Some(s)
  {
    if s != [] {
      var c := s[0];
      var t := EscapeText(s);
      UnescapeEscapeText(s[1..]);
      assert t == EscapeChar(c) + EscapeText(s[1..]);
      if c == '\\' || c == ',' || c == ';' || c == '\n' {
        assert t[2..] == EscapeText(s[1..]);
      } else {
        assert t[1..] == EscapeText(s[1..]);
      }
      assert s == [c] + s[1..];
    }
  }

  // ---------------------------------------------------------------------------------
  // Instants
  // ---------------------------------------------------------------------------------

  /** parseUtc's rewrite: a text ending in 'Z' has every 'Z' replaced by "+00:00". */
  function RewriteZulu(value: string): string
  {
    if EndsWith(value, "Z") then ReplaceChar(value, 'Z', "+00:00") else value
  }

  /**
   * parseUtc: the text read as an ISO offset date-time and moved to the UTC clock. Its null
   * branch is not modelled: every caller passes a non-null text, so a missing time arrives
   * here as "" and fails.
   */
  function ParseUtc(value: string): (r: Result<DateTime, ExportError>)
    ensures r.Success? ==> ValidDateTime(r.value)
    ensures r.Failure? ==> r.error == InvalidTimestamp(value)
    ensures value == "" ==> r.Failure?
  {
    match ParseOffsetDateTime(RewriteZulu(value))
    case None => Failure(InvalidTimestamp(value))
    case Some(t) => Success(ToUtc(t))
  }

  /** The local part "YYYY-MM-DDTHH:MM:SS" of the wire form. */
  function IsoLocalText(t: DateTime): (r: string)
    requires ValidDateTime(t) && 0 <= t.date.year <= 9999
    ensures |r| == 19
  {
    ParsePad(t.date.year, 4);
    ParsePad(t.date.month, 2);
    ParsePad(t.date.day, 2);
    ParsePad(t.hour, 2);
    ParsePad(t.minute, 2);
    ParsePad(t.second, 2);
    LocalLayout(Pad(t.date.year, 4), Pad(t.date.month, 2), Pad(t.date.day, 2),
                Pad(t.hour, 2), Pad(t.minute, 2), Pad(t.second, 2))
  }

  /** The fields of a local date-time laid out with '-', 'T' and ':' between them. */
  function LocalLayout(y: string, mo: string, d: string, h: string, mi: string, sec: string): string
  {
    y + "-" + mo + "-" + d + "T" + h + ":" + mi + ":" + sec
  }

  lemma LayoutWithoutZulu(y: string, mo: string, d: string, h: string, mi: string, sec: string)
    requires AllDigits(y) && AllDigits(mo) && AllDigits(d) && AllDigits(h) && AllDigits(mi) && AllDigits(sec)
    ensures 'Z' !in LocalLayout(y, mo, d, h, mi, sec)
  {
    assert !IsDigit('Z');
  }

  /** The UTC wire form "YYYY-MM-DDTHH:MM:SSZ" of an instant. */
  function IsoUtcText(t: DateTime): string
    requires ValidDateTime(t) && 0 <= t.date.year <= 9999
  {
    IsoLocalText(t) + "Z"
  }

  lemma RewriteIsoUtc(t: DateTime)
    requires ValidDateTime(t) && 0 <= t.date.year <= 9999
    ensures RewriteZulu(IsoUtcText(t)) == IsoLocalText(t) + "+00:00"
  {
    var body := IsoLocalText(t);
    LayoutWithoutZulu(Pad(t.date.year, 4), Pad(t.date.month, 2), Pad(t.date.day, 2),
                      Pad(t.hour, 2), Pad(t.minute, 2), Pad(t.second, 2));
    ReplaceConcat(body, "Z", 'Z', "+00:00");
    ReplaceAbsent(body, 'Z', "+00:00");
    ReplaceOne('Z', 'Z', "+00:00");
  }

  /** Where each field sits in a text laid out as the wire form with a "+00:00" offset. */
  lemma IsoLayout(y: string, mo: string, d: string, h: string, mi: string, sec: string, off: string)
    requires |y| == 4 && |mo| == 2 && |d| == 2 && |h| == 2 && |mi| == 2 && |sec| == 2
    ensures var s := LocalLayout(y, mo, d, h, mi, sec) + off;
      |s| == 19 + |off| && s[0..4] == y && s[4] == '-' && s[5..7] == mo && s[7] == '-' && s[8..10] == d
      && s[10] == 'T' && s[11..13] == h && s[13] == ':' && s[14..16] == mi
      && s[16..] == ":" + sec + off
  {
  }

  lemma SecondsThenOffset(sec: string, off: string)
    requires |sec| == 2 && AllDigits(sec) && (off == [] || off[0] != '.')
    ensures ParseSecondsPart(":" + sec + off) == (ParseNat(sec), off)
  {
    var tail := ":" + sec + off;
    assert tail[1..3] == sec;
    assert tail[3..] == off;
  }

  lemma UtcOffset()
    ensures ParseOffset("+00:00") == Some(0)
  {
    var off := "+00:00";
    assert off[1..3] == "00" && off[4..6] == "00";
    assert AllDigits("00");
    assert ParseNat("00") == 0 by {
      assert "00"[..1] == "0";
      assert "0"[..0] == "";
    }
  }

  /** The local part of the wire form followed by any offset text the offset reader accepts. */
  lemma ParseLocalWithOffset(t: DateTime, off: string)
    requires ValidDateTime(t) && 0 <= t.date.year <= 9999
    requires ParseOffset(off).Some? && (off == [] || off[0] != '.')
    ensures ParseOffsetDateTime(IsoLocalText(t) + off) == Some(OffsetDateTime(t, ParseOffset(off).value))
  {
    ParsePad(t.date.year, 4);
    ParsePad(t.date.month, 2);
    ParsePad(t.date.day, 2);
    ParsePad(t.hour, 2);
    ParsePad(t.minute, 2);
    ParsePad(t.second, 2);
    var y, mo, d := Pad(t.date.year, 4), Pad(t.date.month, 2), Pad(t.date.day, 2);
    var h, mi, sec := Pad(t.hour, 2), Pad(t.minute, 2), Pad(t.second, 2);
    IsoLayout(y, mo, d, h, mi, sec, off);
    SecondsThenOffset(sec, off);
  }

  lemma ParseIsoLocal(t: DateTime)
    requires ValidDateTime(t) && 0 <= t.date.year <= 9999
    ensures ParseOffsetDateTime(IsoLocalText(t) + "+00:00") == Some(OffsetDateTime(t, 0))
  {
    UtcOffset();
    ParseLocalWithOffset(t, "+00:00");
  }

  /**
   * A local date-time followed by an hour-only offset "+HH" or "-HH" (HH up to 18) is read as
   * that many whole hours from UTC; parseUtc moves it to the UTC clock.
   */
  lemma ParseHourOnlyOffset(t: DateTime, sign: char, hours: nat)
    requires ValidDateTime(t) && 0 <= t.date.year <= 9999
    requires (sign == '+' || sign == '-') && hours <= 18
    ensures var offset: int := if sign == '-' then -(hours as int) * 3600 else hours * 3600;
      var r := ParseUtc(IsoLocalText(t) + [sign] + Pad(hours, 2));
      r.Success? && ShiftSeconds(r.value, offset) == t
  {
    var off := [sign] + Pad(hours, 2);
    HourOnlyOffset(sign, hours);
    ParseLocalWithOffset(t, off);
    AppendAssoc(IsoLocalText(t), [sign], Pad(hours, 2));
    NoZuluKept(IsoLocalText(t), off);
    ParseUtcReads(IsoLocalText(t) + off, OffsetDateTime(t, ParseOffset(off).value));
  }

  /** A text that does not end in 'Z' is left alone by the rewrite. */
  lemma NoZuluKept(body: string, off: string)
    requires |off| == 3 && IsDigit(off[2])
    ensures RewriteZulu(body + off) == body + off
  {
    var text := body + off;
    assert text[|text| - 1] == off[2];
  }

  /** "+HH" and "-HH" read as whole hours; the text ends in a digit, not in 'Z'. */
  lemma HourOnlyOffset(sign: char, hours: nat)
    requires (sign == '+' || sign == '-') && hours <= 18
    ensures var off := [sign] + Pad(hours, 2);
      |off| == 3 && off[0] == sign && IsDigit(off[2])
      && ParseOffset(off) == Some(if sign == '-' then -(hours as int) * 3600 else hours * 3600)
  {
    var off := [sign] + Pad(hours, 2);
    ParsePad(hours, 2);
    assert off[1..3] == Pad(hours, 2);
  }

  /** Every UTC instant of years 0..9999, written in the wire form, parses back to itself. */
  lemma ParseUtcRoundTrip(t: DateTime)
    requires ValidDateTime(t) && 0 <= t.date.year <= 9999
    ensures ParseUtc(IsoUtcText(t)) == Success(t)
  {
    RewriteIsoUtc(t);
    ParseIsoLocal(t);
    ParseUtcReads(IsoUtcText(t), OffsetDateTime(t, 0));
    ToUtcAtZero(t);
  }

  /** Once the rewritten text reads as an offset date-time, parseUtc is that value on the UTC clock. */
  lemma ParseUtcReads(text: string, odt: OffsetDateTime)
    requires ParseOffsetDateTime(RewriteZulu(text)) == Some(odt)
    ensures ParseUtc(text) == Success(ToUtc(odt))
  {
  }

  /** formatTimeZ: the UTC clock time as "HH:mm" and a literal 'z'. */
  function FormatTimeZ(t: DateTime): (r: string)
    requires ValidDateTime(t)
    ensures |r| == 6 && r[2] == ':' && r[5] == 'z' && r[..5] == HourMinute(t)
    ensures ParseNat(r[..2]) == t.hour && ParseNat(r[3..5]) == t.minute
  {
    assert (HourMinute(t) + "z")[..2] == HourMinute(t)[..2];
    assert (HourMinute(t) + "z")[3..5] == HourMinute(t)[3..];
    HourMinute(t) + "z"
  }

  /** formatTimeLocal: the clock time in the configured zone as "HH:mm" and " LT". */
  function FormatTimeLocal(t: DateTime, zoneId: string, zones: ZoneRules): (r: Result<string, ExportError>)
    ensures zones(t, zoneId).None? <==> r == Failure(UnknownZone(zoneId))
  {
    match zones(t, zoneId)
    case None => Failure(UnknownZone(zoneId))
    case Some(local) => Success(HourMinute(local) + " LT")
  }

  // ---------------------------------------------------------------------------------
  // Lists of lines, gathered in order
  // ---------------------------------------------------------------------------------

  /**
   * The lines contributed by each item, concatenated in order; the first failing item
   * ends the loop with its failure, as a thrown exception does.
   */
  function Gather<T>(xs: seq<T>, f: T -> Result<seq<string>, ExportError>): Result<seq<string>, ExportError>
  {
    if xs == [] then Success([])
    else
      var head :- f(xs[0]);
      var rest :- Gather(xs[1..], f);
      Success(head + rest)
  }

  /** Sequencing two line producers: the first failure wins, otherwise the lines concatenate. */
  function Then(a: Result<seq<string>, ExportError>, b: Result<seq<string>, ExportError>): Result<seq<string>, ExportError>
  {
    if a.Failure? then a else if b.Failure? then b else Success(a.value + b.value)
  }

  lemma {:induction false} GatherAppend<T>(xs: seq<T>, ys: seq<T>, f: T -> Result<seq<string>, ExportError>)
    ensures Gather(xs + ys, f) == Then(Gather(xs, f), Gather(ys, f))
  {
    if xs == [] {
      assert xs + ys == ys;
      if Gather(ys, f).Success? {
        assert [] + Gather(ys, f).value == Gather(ys, f).value;
      }
    } else {
      assert (xs + ys)[0] == xs[0];
      assert (xs + ys)[1..] == xs[1..] + ys;
      GatherAppend(xs[1..], ys, f);
      if f(xs[0]).Success? && Gather(xs[1..], f).Success? && Gather(ys, f).Success? {
        assert f(xs[0]).value + (Gather(xs[1..], f).value + Gather(ys, f).value)
            == (f(xs[0]).value + Gather(xs[1..], f).value) + Gather(ys, f).value;
      }
    }
  }

  lemma GatherSnoc<T>(xs: seq<T>, x: T, f: T -> Result<seq<string>, ExportError>)
    ensures Gather(xs + [x], f) == Then(Gather(xs, f), f(x))
  {
    GatherAppend(xs, [x], f);
    assert [x][1..] == [];
    if f(x).Success? {
      assert f(x).value + [] == f(x).value;
    }
  }

  /** Once a prefix fails, the whole list fails the same way: later items are never visited. */
  lemma GatherStopsAtFailure<T>(xs: seq<T>, k: nat, f: T -> Result<seq<string>, ExportError>)
    requires k <= |xs| && Gather(xs[..k], f).Failure?
    ensures Gather(xs, f) == Gather(xs[..k], f)
  {
    GatherAppend(xs[..k], xs[k..], f);
    assert xs[..k] + xs[k..] == xs;
  }

  /** One more iteration of a gathering loop: the next item's lines go on the end. */
  lemma GatherStep<T>(xs: seq<T>, i: nat, f: T -> Result<seq<string>, ExportError>, done: seq<string>)
    requires i < |xs| && Gather(xs[..i], f) == Success(done) && f(xs[i]).Success?
    ensures Gather(xs[..i + 1], f) == Success(done + f(xs[i]).value)
  {
    GatherSnoc(xs[..i], xs[i], f);
    assert xs[..i + 1] == xs[..i] + [xs[i]];
  }

  /** An iteration whose item fails ends the whole loop with that failure. */
  lemma GatherStepFails<T>(xs: seq<T>, i: nat, f: T -> Result<seq<string>, ExportError>)
    requires i < |xs| && Gather(xs[..i], f).Success? && f(xs[i]).Failure?
    ensures Gather(xs, f) == f(xs[i])
  {
    GatherSnoc(xs[..i], xs[i], f);
    assert xs[..i + 1] == xs[..i] + [xs[i]];
    GatherStopsAtFailure(xs, i + 1, f);
  }

  /** Any item that fails makes the whole list fail. */
  lemma {:induction false} GatherFailsIfAnyFails<T>(xs: seq<T>, k: nat, f: T -> Result<seq<string>, ExportError>)
    requires k < |xs| && f(xs[k]).Failure?
    ensures Gather(xs, f).Failure?
  {
    if k > 0 {
      GatherFailsIfAnyFails(xs[1..], k - 1, f);
    }
  }

  // ---------------------------------------------------------------------------------
  // buildDescription
  // ---------------------------------------------------------------------------------

  /** stringValue with a non-null fallback. */
  function StringOr(v: Json, fallback: string): (r: string)
    ensures v == JNull ==> r == fallback
    ensures v.JString? ==> r == v.s
  {
    StringValue(v, Some(fallback)).value
  }

  /** One sector line "fn dep HH:mmz arr HH:mmz" for a map entry of "flights"; nothing for any other entry. */
  function SectorLine(flight: Json): (r: Result<seq<string>, ExportError>)
    ensures r.Success? ==> |r.value| == (if flight.JObject? then 1 else 0)
  {
    if !flight.JObject? then Success([])
    else
      var fn := StringOr(Lookup(flight.fields, "flight_number"), "UNKNOWN");
      var depAirport := StringOr(Lookup(flight.fields, "departure_airport"), "???");
      var arrAirport := StringOr(Lookup(flight.fields, "arrival_airport"), "???");
      var dep :- ParseUtc(StringOr(Lookup(flight.fields, "departure_time_utc"), ""));
      var arr :- ParseUtc(StringOr(Lookup(flight.fields, "arrival_time_utc"), ""));
      Success([SectorText(fn, depAirport, dep, arrAirport, arr)])
  }

  function SectorText(fn: string, depAirport: string, dep: DateTime, arrAirport: string, arr: DateTime): string
    requires ValidDateTime(dep) && ValidDateTime(arr)
  {
    fn + " " + depAirport + " " + FormatTimeZ(dep) + " " + arrAirport + " " + FormatTimeZ(arr)
  }

  /** One line "sp HH:mmz -> ep HH:mmz" for a map entry of "activities"; nothing for any other entry. */
  function ActivityLine(activity: Json): (r: Result<seq<string>, ExportError>)
    ensures r.Success? ==> |r.value| == (if activity.JObject? then 1 else 0)
  {
    if !activity.JObject? then Success([])
    else
      var startPlace := StringOr(Lookup(activity.fields, "start_place"), "???");
      var endPlace := StringOr(Lookup(activity.fields, "end_place"), "???");
      var from :- ParseUtc(StringOr(Lookup(activity.fields, "start_time_utc"), ""));
      var to :- ParseUtc(StringOr(Lookup(activity.fields, "end_time_utc"), ""));
      Success([ActivityText(startPlace, from, endPlace, to)])
  }

  function ActivityText(startPlace: string, from: DateTime, endPlace: string, to: DateTime): string
    requires ValidDateTime(from) && ValidDateTime(to)
  {
    startPlace + " " + FormatTimeZ(from) + " -> " + endPlace + " " + FormatTimeZ(to)
  }

  /** The HSBY template after its title: the time range, then the location when it is not blank. */
  function StandbyLines(checkinZ: string, checkoutZ: string, checkinLt: string, checkoutLt: string, location: Option<string>): seq<string>
  {
    ["Standby (HSBY)", checkinZ + " – " + checkoutZ + " (" + checkinLt + " – " + checkoutLt + ")"]
      + (if location.Some? && !IsBlank(location.value) then ["Location: " + location.value] else [])
  }

  /** The four clock texts every description template draws on. */
  datatype DutyTimes = DutyTimes(checkinZ: string, checkoutZ: string, checkinLt: string, checkoutLt: string)

  /**
   * Both duty times parsed and rendered in UTC and in the configured zone: buildDescription
   * does all of this before it looks at the duty type, so any failure here fails every template.
   */
  function DutyTimesOf(event: JsonObject, zoneId: string, zones: ZoneRules): Result<DutyTimes, ExportError>
  {
    var start :- ParseUtc(StringOr(Lookup(event, "start_utc"), ""));
    var end :- ParseUtc(StringOr(Lookup(event, "end_utc"), ""));
    var checkinLt :- FormatTimeLocal(start, zoneId, zones);
    var checkoutLt :- FormatTimeLocal(end, zoneId, zones);
    Success(DutyTimes(FormatTimeZ(start), FormatTimeZ(end), checkinLt, checkoutLt))
  }

  /** The template chosen by the duty type, filled in from the clock texts and the event's lists. */
  function DescriptionBody(dutyType: string, event: JsonObject, times: DutyTimes): Result<seq<string>, ExportError>
  {
    var checkIn := "CHECK-IN " + times.checkinZ + " (" + times.checkinLt + ")";
    var checkOut := "CHECK-OUT " + times.checkoutZ + " (" + times.checkoutLt + ")";
    if dutyType == "FLIGHT" || dutyType == "DH" then
      var sectors :- Gather(ListItems(Lookup(event, "flights")), SectorLine);
      Success([checkIn] + sectors + [checkOut])
    else if dutyType == "HSBY" then
      Success(StandbyLines(times.checkinZ, times.checkoutZ, times.checkinLt, times.checkoutLt,
                           StringValue(Lookup(event, "location"), None)))
    else if dutyType == "A/L" then
      Success(["Annual leave"])
    else
      var legs :- Gather(ListItems(Lookup(event, "activities")), ActivityLine);
      Success(["Duty: " + dutyType, checkIn] + legs + [checkOut])
  }

  /** The description's lines; here the duty type defaults to "" (not "DUTY"). */
  function DescriptionLines(event: JsonObject, zoneId: string, zones: ZoneRules): Result<seq<string>, ExportError>
  {
    var times :- DutyTimesOf(event, zoneId, zones);
    DescriptionBody(StringOr(Lookup(event, "duty_type"), ""), event, times)
  }

  /** buildDescription's result: the lines joined with line feeds. */
  function DescriptionText(event: JsonObject, zoneId: string, zones: ZoneRules): Result<string, ExportError>
  {
    var lines :- DescriptionLines(event, zoneId, zones);
    Success(Join(lines, "\n"))
  }

  // ---------------------------------------------------------------------------------
  // eventToIcs
  // ---------------------------------------------------------------------------------

  /** eventToIcs's duty type: defaults to "DUTY". */
  function DutyType(event: JsonObject): (r: string)
    ensures Lookup(event, "duty_type") == JNull ==> r == "DUTY"
  {
    StringOr(Lookup(event, "duty_type"), "DUTY")
  }

  /** All-day mode: "is_all_day" is the JSON Boolean true, or the duty type is A/L. */
  predicate IsAllDay(event: JsonObject)
  {
    BooleanValue(Lookup(event, "is_all_day"), false) || DutyType(event) == "A/L"
  }

  function DateText(d: Date): (r: Result<string, ExportError>)
    requires ValidDate(d)
  {
    match BasicIsoDate(d)
    case None => Failure(DateNotPrintable(d))
    case Some(text) => Success(text)
  }

  /** DTSTART and DTEND: DATE values for the start's UTC date and the day after, else UTC DATE-TIMEs. */
  function SpanLines(allDay: bool, start: DateTime, end: DateTime): (r: Result<seq<string>, ExportError>)
    requires ValidDateTime(start) && ValidDateTime(end)
    ensures r.Success? ==> |r.value| == 2
  {
    if allDay then
      var first :- DateText(start.date);
      var next :- DateText(NextDay(start.date));
      Success(["DTSTART;VALUE=DATE:" + first, "DTEND;VALUE=DATE:" + next])
    else
      Success(["DTSTART:" + IcsDateTime(start), "DTEND:" + IcsDateTime(end)])
  }

  /** COLOR_MAP.get: the colour of a mapped duty type, None (null) for any other. */
  function ColorOf(dutyType: string): (r: Option<string>)
    ensures r.Some? <==> dutyType in {"FLIGHT", "DH", "HSBY", "A/L"}
    ensures r.Some? ==> r.value == COLOR_MAP[dutyType]
  {
    if dutyType in COLOR_MAP then Some(COLOR_MAP[dutyType]) else None
  }

  /** The COLOR line, present only when the duty type has a colour. */
  function ColorLines(dutyType: string): seq<string>
  {
    match ColorOf(dutyType)
    case Some(color) => ["COLOR:" + color]
    case None => []
  }

  /** The VEVENT block of one duty object; no lines at all when start_utc or end_utc is missing. */
  function EventLines(event: JsonObject, zoneId: string, now: Instant, zones: ZoneRules): Result<seq<string>, ExportError>
  {
    var startUtc := StringValue(Lookup(event, "start_utc"), None);
    var endUtc := StringValue(Lookup(event, "end_utc"), None);
    if startUtc.None? || endUtc.None? then Success([])
    else EventBlock(event, startUtc.value, endUtc.value, zoneId, now, zones)
  }

  /** The block of a duty object whose start and end texts are present. */
  function EventBlock(event: JsonObject, startUtc: string, endUtc: string, zoneId: string, now: Instant, zones: ZoneRules)
    : Result<seq<string>, ExportError>
  {
    var start :- ParseUtc(startUtc);
    var end :- ParseUtc(endUtc);
    EventBody(event, UidOf(DutyType(event), startUtc, endUtc), start, end, zoneId, now, zones)
  }

  /** The block once both times are parsed: its DTSTART/DTEND, then the description. */
  function EventBody(event: JsonObject, uid: string, start: DateTime, end: DateTime, zoneId: string, now: Instant, zones: ZoneRules)
    : Result<seq<string>, ExportError>
    requires ValidDateTime(start) && ValidDateTime(end)
  {
    var span :- SpanLines(IsAllDay(event), start, end);
    var description :- DescriptionText(event, zoneId, zones);
    Success(BlockLines(DutyType(event), uid, now, span, description))
  }

  /** The UID: the duty type and the two raw time texts joined with '|'. */
  function UidOf(dutyType: string, startUtc: string, endUtc: string): string
  {
    dutyType + "|" + startUtc + "|" + endUtc
  }

  /** The lines of a block, in the order eventToIcs appends them. */
  function BlockLines(dutyType: string, uid: string, now: Instant, span: seq<string>, description: string): seq<string>
  {
    ["BEGIN:VEVENT", "UID:" + uid, "DTSTAMP:" + IcsDateTime(now)]
      + span
      + ["SUMMARY:" + EscapeIcs(Some(dutyType)), "DESCRIPTION:" + EscapeIcs(Some(description))]
      + ColorLines(dutyType)
      + ["END:VEVENT"]
  }

  // ---------------------------------------------------------------------------------
  // jsonToIcs
  // ---------------------------------------------------------------------------------

  /** One entry of "events": a duty object's block, nothing for an entry that is not an object. */
  function EntryLines(entry: Json, zoneId: string, now: Instant, zones: ZoneRules): Result<seq<string>, ExportError>
  {
    if entry.JObject? then EventLines(entry.fields, zoneId, now, zones) else Success([])
  }

  function EntryFn(zoneId: string, now: Instant, zones: ZoneRules): Json -> Result<seq<string>, ExportError>
  {
    entry => EntryLines(entry, zoneId, now, zones)
  }

  function Header(calendarName: string): seq<string>
  {
    ["BEGIN:VCALENDAR", "VERSION:2.0", "PRODID:-//" + calendarName + "//RosterToICS//EN",
     "CALSCALE:GREGORIAN", "METHOD:PUBLISH"]
  }

  /** The blocks of every entry of "events", in list order; none when "events" is not a list. */
  function EventBlocks(roster: JsonObject, zoneId: string, now: Instant, zones: ZoneRules): Result<seq<string>, ExportError>
  {
    Gather(ListItems(Lookup(roster, "events")), EntryFn(zoneId, now, zones))
  }

  function CalendarLines(roster: JsonObject, calendarName: string, zoneId: string, now: Instant, zones: ZoneRules): Result<seq<string>, ExportError>
  {
    var blocks :- EventBlocks(roster, zoneId, now, zones);
    Success(Header(calendarName) + blocks + ["END:VCALENDAR"])
  }

  /** jsonToIcs's result: the calendar's lines joined with CRLF. */
  function CalendarText(roster: JsonObject, calendarName: string, zoneId: string, now: Instant, zones: ZoneRules): Result<string, ExportError>
  {
    var lines :- CalendarLines(roster, calendarName, zoneId, now, zones);
    Success(Join(lines, CRLF))
  }

  // ---------------------------------------------------------------------------------
  // The exporter's methods, each proved equal to its specification function
  // ---------------------------------------------------------------------------------

  /** buildDescription's loop over "flights": one sector line per map entry, in list order. */
  method CollectSectors(flights: seq<Json>) returns (r: Result<seq<string>, ExportError>)
    ensures r == Gather(flights, SectorLine)
  {
    var lines: seq<string> := [];
    assert flights[..0] == [];
    var i := 0;
    while i < |flights|
      invariant 0 <= i <= |flights|
      invariant Gather(flights[..i], SectorLine) == Success(lines)
    {
      if flights[i].JObject? {
        var flight := flights[i].fields;
        var fn := StringOr(Lookup(flight, "flight_number"), "UNKNOWN");
        var depAp := StringOr(Lookup(flight, "departure_airport"), "???");
        var arrAp := StringOr(Lookup(flight, "arrival_airport"), "???");
        var dep := ParseUtc(StringOr(Lookup(flight, "departure_time_utc"), ""));
        if dep.Failure? {
          GatherStepFails(flights, i, SectorLine);
          return Failure(dep.error);
        }
        var arr := ParseUtc(StringOr(Lookup(flight, "arrival_time_utc"), ""));
        if arr.Failure? {
          GatherStepFails(flights, i, SectorLine);
          return Failure(arr.error);
        }
        var line := SectorText(fn, depAp, dep.value, arrAp, arr.value);
        assert SectorLine(flights[i]) == Success([line]);
        GatherStep(flights, i, SectorLine, lines);
        lines := lines + [line];
      } else {
        GatherStep(flights, i, SectorLine, lines);
        assert lines + [] == lines;
      }
      i := i + 1;
    }
    assert flights[..i] == flights;
    return Success(lines);
  }

  /** buildDescription's loop over "activities": one line per map entry, in list order. */
  method CollectActivities(activities: seq<Json>) returns (r: Result<seq<string>, ExportError>)
    ensures r == Gather(activities, ActivityLine)
  {
    var lines: seq<string> := [];
    assert activities[..0] == [];
    var i := 0;
    while i < |activities|
      invariant 0 <= i <= |activities|
      invariant Gather(activities[..i], ActivityLine) == Success(lines)
    {
      if activities[i].JObject? {
        var activity := activities[i].fields;
        var startPlace := StringOr(Lookup(activity, "start_place"), "???");
        var endPlace := StringOr(Lookup(activity, "end_place"), "???");
        var startAct := ParseUtc(StringOr(Lookup(activity, "start_time_utc"), ""));
        if startAct.Failure? {
          GatherStepFails(activities, i, ActivityLine);
          return Failure(startAct.error);
        }
        var endAct := ParseUtc(StringOr(Lookup(activity, "end_time_utc"), ""));
        if endAct.Failure? {
          GatherStepFails(activities, i, ActivityLine);
          return Failure(endAct.error);
        }
        var line := ActivityText(startPlace, startAct.value, endPlace, endAct.value);
        assert ActivityLine(activities[i]) == Success([line]);
        GatherStep(activities, i, ActivityLine, lines);
        lines := lines + [line];
      } else {
        GatherStep(activities, i, ActivityLine, lines);
        assert lines + [] == lines;
      }
      i := i + 1;
    }
    assert activities[..i] == activities;
    return Success(lines);
  }

  /** buildDescription: the description text of one duty object. */
  method BuildDescription(event: JsonObject, zoneId: string, zones: ZoneRules) returns (r: Result<string, ExportError>)
    ensures r == DescriptionText(event, zoneId, zones)
  {
    var dutyType := StringOr(Lookup(event, "duty_type"), "");
    var start := ParseUtc(StringOr(Lookup(event, "start_utc"), ""));
    if start.Failure? {
      return Failure(start.error);
    }
    var end := ParseUtc(StringOr(Lookup(event, "end_utc"), ""));
    if end.Failure? {
      return Failure(end.error);
    }
    var checkinZ := FormatTimeZ(start.value);
    var checkoutZ := FormatTimeZ(end.value);
    var checkinLt := FormatTimeLocal(start.value, zoneId, zones);
    if checkinLt.Failure? {
      return Failure(checkinLt.error);
    }
    var checkoutLt := FormatTimeLocal(end.value, zoneId, zones);
    if checkoutLt.Failure? {
      return Failure(checkoutLt.error);
    }
    assert DutyTimesOf(event, zoneId, zones) == Success(DutyTimes(checkinZ, checkoutZ, checkinLt.value, checkoutLt.value));
    var lines := FillTemplate(dutyType, event, checkinZ, checkoutZ, checkinLt.value, checkoutLt.value);
    if lines.Failure? {
      return Failure(lines.error);
    }
    return Success(Join(lines.value, "\n"));
  }

  /** buildDescription's choice of template by duty type, once the four clock texts are known. */
  method FillTemplate(dutyType: string, event: JsonObject, checkinZ: string, checkoutZ: string, checkinLt: string, checkoutLt: string)
    returns (r: Result<seq<string>, ExportError>)
    ensures r == DescriptionBody(dutyType, event, DutyTimes(checkinZ, checkoutZ, checkinLt, checkoutLt))
  {
    var checkIn := "CHECK-IN " + checkinZ + " (" + checkinLt + ")";
    var checkOut := "CHECK-OUT " + checkoutZ + " (" + checkoutLt + ")";
    var lines: seq<string> := [];
    if dutyType == "FLIGHT" || dutyType == "DH" {
      lines := lines + [checkIn];
      var sectors := CollectSectors(ListItems(Lookup(event, "flights")));
      if sectors.Failure? {
        return Failure(sectors.error);
      }
      lines := lines + sectors.value;
      lines := lines + [checkOut];
      assert lines == [checkIn] + sectors.value + [checkOut];
    } else if dutyType == "HSBY" {
      lines := lines + ["Standby (HSBY)"];
      lines := lines + [checkinZ + " – " + checkoutZ + " (" + checkinLt + " – " + checkoutLt + ")"];
      var location := StringValue(Lookup(event, "location"), None);
      if location.Some? && !IsBlank(location.value) {
        lines := lines + ["Location: " + location.value];
      }
      assert lines == StandbyLines(checkinZ, checkoutZ, checkinLt, checkoutLt, location);
    } else if dutyType == "A/L" {
      lines := lines + ["Annual leave"];
      assert lines == ["Annual leave"];
    } else {
      lines := lines + ["Duty: " + dutyType];
      lines := lines + [checkIn];
      assert lines == ["Duty: " + dutyType, checkIn];
      var legs := CollectActivities(ListItems(Lookup(event, "activities")));
      if legs.Failure? {
        return Failure(legs.error);
      }
      lines := lines + legs.value;
      lines := lines + [checkOut];
      assert lines == ["Duty: " + dutyType, checkIn] + legs.value + [checkOut];
    }
    return Success(lines);
  }

  lemma ColorLinesOf(dutyType: string, colorLines: seq<string>)
    requires colorLines == if ColorOf(dutyType).Some? then ["COLOR:" + ColorOf(dutyType).value] else []
    ensures ColorLines(dutyType) == colorLines
  {
  }

  lemma BodyFailsAtSpan(event: JsonObject, uid: string, start: DateTime, end: DateTime, zoneId: string, now: Instant, zones: ZoneRules)
    requires ValidDateTime(start) && ValidDateTime(end)
    requires SpanLines(IsAllDay(event), start, end).Failure?
    ensures EventBody(event, uid, start, end, zoneId, now, zones) == Failure(SpanLines(IsAllDay(event), start, end).error)
  {
  }

  lemma BodyFailsAtDescription(event: JsonObject, uid: string, start: DateTime, end: DateTime, zoneId: string, now: Instant, zones: ZoneRules)
    requires ValidDateTime(start) && ValidDateTime(end)
    requires SpanLines(IsAllDay(event), start, end).Success? && DescriptionText(event, zoneId, zones).Failure?
    ensures EventBody(event, uid, start, end, zoneId, now, zones) == Failure(DescriptionText(event, zoneId, zones).error)
  {
  }

  lemma BodyOfParts(event: JsonObject, uid: string, start: DateTime, end: DateTime, zoneId: string, now: Instant, zones: ZoneRules,
                    span: seq<string>, description: string)
    requires ValidDateTime(start) && ValidDateTime(end)
    requires SpanLines(IsAllDay(event), start, end) == Success(span)
    requires DescriptionText(event, zoneId, zones) == Success(description)
    ensures EventBody(event, uid, start, end, zoneId, now, zones) == Success(BlockLines(DutyType(event), uid, now, span, description))
  {
  }

  /** BlockLines is what eventToIcs's appends produce, one line after another. */
  lemma BlockLinesInOrder(dutyType: string, uid: string, now: Instant, span: seq<string>, description: string)
    ensures BlockLines(dutyType, uid, now, span, description)
         == [] + ["BEGIN:VEVENT"] + ["UID:" + uid] + ["DTSTAMP:" + IcsDateTime(now)] + span
            + ["SUMMARY:" + EscapeIcs(Some(dutyType))] + ["DESCRIPTION:" + EscapeIcs(Some(description))]
            + ColorLines(dutyType) + ["END:VEVENT"]
  {
    LinesOneByOne("BEGIN:VEVENT", "UID:" + uid, "DTSTAMP:" + IcsDateTime(now), span,
                  "SUMMARY:" + EscapeIcs(Some(dutyType)), "DESCRIPTION:" + EscapeIcs(Some(description)),
                  ColorLines(dutyType), "END:VEVENT");
  }

  lemma LinesOneByOne(a: string, b: string, c: string, span: seq<string>, d: string, e: string,
                      color: seq<string>, f: string)
    ensures [a, b, c] + span + [d, e] + color + [f]
         == [] + [a] + [b] + [c] + span + [d] + [e] + color + [f]
  {
  }

  /** eventToIcs's DTSTART and DTEND lines. */
  method SpanToIcs(allDay: bool, start: DateTime, end: DateTime) returns (r: Result<seq<string>, ExportError>)
    requires ValidDateTime(start) && ValidDateTime(end)
    ensures r == SpanLines(allDay, start, end)
  {
    var lines: seq<string> := [];
    if allDay {
      var startDate := start.date;
      var endDate := NextDay(startDate);
      var startText := BasicIsoDate(startDate);
      if startText.None? {
        return Failure(DateNotPrintable(startDate));
      }
      lines := lines + ["DTSTART;VALUE=DATE:" + startText.value];
      var endText := BasicIsoDate(endDate);
      if endText.None? {
        return Failure(DateNotPrintable(endDate));
      }
      lines := lines + ["DTEND;VALUE=DATE:" + endText.value];
      assert lines == ["DTSTART;VALUE=DATE:" + startText.value, "DTEND;VALUE=DATE:" + endText.value];
    } else {
      lines := lines + ["DTSTART:" + IcsDateTime(start)];
      lines := lines + ["DTEND:" + IcsDateTime(end)];
      assert lines == ["DTSTART:" + IcsDateTime(start), "DTEND:" + IcsDateTime(end)];
    }
    return Success(lines);
  }

  /** eventToIcs: the VEVENT lines of one duty object, with `now` as the DTSTAMP instant. */
  method EventToIcs(event: JsonObject, zoneId: string, now: Instant, zones: ZoneRules) returns (r: Result<seq<string>, ExportError>)
    ensures r == EventLines(event, zoneId, now, zones)
  {
    var lines: seq<string> := [];
    var dutyType := StringOr(Lookup(event, "duty_type"), "DUTY");
    var startUtc := StringValue(Lookup(event, "start_utc"), None);
    var endUtc := StringValue(Lookup(event, "end_utc"), None);
    if startUtc.None? || endUtc.None? {
      return Success(lines);
    }

    var start := ParseUtc(startUtc.value);
    if start.Failure? {
      return Failure(start.error);
    }
    var end := ParseUtc(endUtc.value);
    if end.Failure? {
      return Failure(end.error);
    }
    var uid := dutyType + "|" + startUtc.value + "|" + endUtc.value;
    r := AppendEventLines(event, dutyType, uid, start.value, end.value, zoneId, now, zones);
  }

  /** The rest of eventToIcs: every line of the block, appended in order. */
  method AppendEventLines(event: JsonObject, dutyType: string, uid: string, start: DateTime, end: DateTime,
                          zoneId: string, now: Instant, zones: ZoneRules)
    returns (r: Result<seq<string>, ExportError>)
    requires dutyType == DutyType(event)
    requires ValidDateTime(start) && ValidDateTime(end)
    ensures r == EventBody(event, uid, start, end, zoneId, now, zones)
  {
    var lines: seq<string> := [];
    lines := lines + ["BEGIN:VEVENT"];
    lines := lines + ["UID:" + uid];
    lines := lines + ["DTSTAMP:" + IcsDateTime(now)];

    var isAllDay := BooleanValue(Lookup(event, "is_all_day"), false) || dutyType == "A/L";
    var span := SpanToIcs(isAllDay, start, end);
    if span.Failure? {
      BodyFailsAtSpan(event, uid, start, end, zoneId, now, zones);
      return Failure(span.error);
    }
    lines := lines + span.value;

    lines := lines + ["SUMMARY:" + EscapeIcs(Some(dutyType))];
    var description := BuildDescription(event, zoneId, zones);
    if description.Failure? {
      BodyFailsAtDescription(event, uid, start, end, zoneId, now, zones);
      return Failure(description.error);
    }
    lines := lines + ["DESCRIPTION:" + EscapeIcs(Some(description.value))];
    var color := ColorOf(dutyType);
    var colorLines := if color.Some? then ["COLOR:" + color.value] else [];
    ColorLinesOf(dutyType, colorLines);
    lines := lines + colorLines;
    lines := lines + ["END:VEVENT"];
    BlockLinesInOrder(dutyType, uid, now, span.value, description.value);
    BodyOfParts(event, uid, start, end, zoneId, now, zones, span.value, description.value);
    return Success(lines);
  }

  /** jsonToIcs: the calendar text of a decoded roster, with `now` as every event's DTSTAMP instant. */
  method JsonToIcs(roster: JsonObject, calendarName: string, zoneId: string, now: Instant, zones: ZoneRules)
    returns (r: Result<string, ExportError>)
    ensures r == CalendarText(roster, calendarName, zoneId, now, zones)
  {
    var lines: seq<string> := [];
    lines := lines + ["BEGIN:VCALENDAR"];
    lines := lines + ["VERSION:2.0"];
    lines := lines + ["PRODID:-//" + calendarName + "//RosterToICS//EN"];
    lines := lines + ["CALSCALE:GREGORIAN"];
    lines := lines + ["METHOD:PUBLISH"];

    var events := ListItems(Lookup(roster, "events"));
    var entry := EntryFn(zoneId, now, zones);
    ghost var done: seq<string> := [];
    assert events[..0] == [];
    var i := 0;
    while i < |events|
      invariant 0 <= i <= |events|
      invariant Gather(events[..i], entry) == Success(done)
      invariant lines == Header(calendarName) + done
    {
      assert entry(events[i]) == EntryLines(events[i], zoneId, now, zones);
      if events[i].JObject? {
        var block := EventToIcs(events[i].fields, zoneId, now, zones);
        if block.Failure? {
          GatherStepFails(events, i, entry);
          return Failure(block.error);
        }
        GatherStep(events, i, entry, done);
        AppendAssoc(Header(calendarName), done, block.value);
        lines := lines + block.value;
        done := done + block.value;
      } else {
        GatherStep(events, i, entry, done);
        assert done + [] == done;
      }
      i := i + 1;
    }
    assert events[..i] == events;

    lines := lines + ["END:VCALENDAR"];
    return Success(Join(lines, CRLF));
  }
}
