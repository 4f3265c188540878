/**
 * What the exporter promises about the calendar it writes: the envelope, which events
 * become blocks and in what order, the shape of a block, the all-day encoding, the
 * description templates, the failure cases, and that only the DTSTAMP lines depend on
 * the current instant.
 */
module IcsProperties {
  import opened Wrappers
  import opened Text
  import opened JsonValue
  import opened CivilTime
  import opened Timestamps
  import opened IcsExporter

  // ---------------------------------------------------------------------------------
  // The envelope
  // ---------------------------------------------------------------------------------

  /** The five header lines joined with CRLF. */
  function HeaderText(calendarName: string): string
  {
    "BEGIN:VCALENDAR" + CRLF + "VERSION:2.0" + CRLF + ("PRODID:-//" + calendarName + "//RosterToICS//EN")
      + CRLF + "CALSCALE:GREGORIAN" + CRLF + "METHOD:PUBLISH"
  }

  lemma JoinFive(a: string, b: string, c: string, d: string, e: string, sep: string)
    ensures Join([a, b, c, d, e], sep) == a + sep + b + sep + c + sep + d + sep + e
  {
    assert [a, b, c, d, e][1..] == [b, c, d, e];
    assert [b, c, d, e][1..] == [c, d, e];
    assert [c, d, e][1..] == [d, e];
    assert [d, e][1..] == [e];
    assert Join([d, e], sep) == d + sep + e;
    assert Join([c, d, e], sep) == c + sep + (d + sep + e);
    assert Join([b, c, d, e], sep) == b + sep + (c + sep + (d + sep + e));
  }

  lemma HeaderJoin(calendarName: string)
    ensures Join(Header(calendarName), CRLF) == HeaderText(calendarName)
  {
    JoinFive("BEGIN:VCALENDAR", "VERSION:2.0", "PRODID:-//" + calendarName + "//RosterToICS//EN",
             "CALSCALE:GREGORIAN", "METHOD:PUBLISH", CRLF);
  }

  lemma PrefixAndSuffix(x: string, y: string)
    ensures |x| <= |x + y| && (x + y)[..|x|] == x && EndsWith(x + y, y)
  {
  }

  lemma EndsWithExtend(x: string, y: string, z: string)
    requires EndsWith(y, z)
    ensures EndsWith(x + y, z)
  {
    assert (x + y)[|x + y| - |z|..] == y[|y| - |z|..];
  }

  /** Lines joined with `last` at the end finish with the separator and `last`, or are `last` alone. */
  lemma JoinEndsWithLast(blocks: seq<string>, last: string, sep: string)
    ensures blocks == [] ==> Join(blocks + [last], sep) == last
    ensures blocks != [] ==> EndsWith(Join(blocks + [last], sep), sep + last)
  {
    if blocks == [] {
      assert blocks + [last] == [last];
    } else {
      JoinConcat(blocks, [last], sep);
      assert Join([last], sep) == last;
      AppendAssoc(Join(blocks, sep), sep, last);
      PrefixAndSuffix(Join(blocks, sep), sep + last);
    }
  }

  /** The text of header + blocks + [last] starts with the header's text and a separator and ends with the last line. */
  lemma Enveloped(header: seq<string>, blocks: seq<string>, last: string, sep: string)
    requires |header| >= 1
    ensures var text := Join(header + blocks + [last], sep);
      var head := Join(header, sep) + sep;
      |head| <= |text| && text[..|head|] == head && EndsWith(text, sep + last)
  {
    var tail := blocks + [last];
    AppendAssoc(header, blocks, [last]);
    JoinConcat(header, tail, sep);
    var head := Join(header, sep) + sep;
    var rest := Join(tail, sep);
    PrefixAndSuffix(head, rest);
    TailEndsWithLast(head, blocks, last, sep);
  }

  lemma TailEndsWithLast(head: string, blocks: seq<string>, last: string, sep: string)
    requires |head| >= |sep| && head[|head| - |sep|..] == sep
    ensures EndsWith(head + Join(blocks + [last], sep), sep + last)
  {
    var rest := Join(blocks + [last], sep);
    JoinEndsWithLast(blocks, last, sep);
    if blocks == [] {
      assert rest == last;
      var h := head[..|head| - |sep|];
      assert head == h + sep;
      AppendAssoc(h, sep, last);
      PrefixAndSuffix(h, sep + last);
    } else {
      EndsWithExtend(head, rest, sep + last);
    }
  }

  /**
   * Every calendar starts with the five header lines and ends with END:VCALENDAR, CRLF
   * between lines and none after the last.
   */
  lemma CalendarEnvelope(roster: JsonObject, calendarName: string, zoneId: string, now: Instant, zones: ZoneRules)
    requires CalendarText(roster, calendarName, zoneId, now, zones).Success?
    ensures var text := CalendarText(roster, calendarName, zoneId, now, zones).value;
      var head := HeaderText(calendarName) + CRLF;
      |head| <= |text| && text[..|head|] == head && EndsWith(text, CRLF + "END:VCALENDAR")
  {
    var blocks := EventBlocks(roster, zoneId, now, zones).value;
    Enveloped(Header(calendarName), blocks, "END:VCALENDAR", CRLF);
    HeaderJoin(calendarName);
  }

  /** Entries of "events" that are not objects contribute nothing. */
  lemma {:induction false} NonObjectsGatherNothing(items: seq<Json>, zoneId: string, now: Instant, zones: ZoneRules)
    requires forall i :: 0 <= i < |items| ==> !items[i].JObject?
    ensures Gather(items, EntryFn(zoneId, now, zones)) == Success([])
  {
    if items != [] {
      assert forall i :: 0 <= i < |items[1..]| ==> !items[1..][i].JObject? by {
        forall i | 0 <= i < |items[1..]| ensures !items[1..][i].JObject? {
          assert items[1..][i] == items[i + 1];
        }
      }
      NonObjectsGatherNothing(items[1..], zoneId, now, zones);
      assert EntryFn(zoneId, now, zones)(items[0]) == Success([]);
      var none: seq<string> := [];
      assert none + none == none;
    }
  }

  /**
   * A roster whose "events" is missing, is not a list, or holds no objects still gives a
   * complete calendar: the header and END:VCALENDAR.
   */
  lemma CalendarWithoutEvents(roster: JsonObject, calendarName: string, zoneId: string, now: Instant, zones: ZoneRules)
    requires forall i :: 0 <= i < |ListItems(Lookup(roster, "events"))| ==> !ListItems(Lookup(roster, "events"))[i].JObject?
    ensures CalendarText(roster, calendarName, zoneId, now, zones) == Success(HeaderText(calendarName) + CRLF + "END:VCALENDAR")
  {
    NonObjectsGatherNothing(ListItems(Lookup(roster, "events")), zoneId, now, zones);
    var h := Header(calendarName);
    assert h + [] == h;
    assert CalendarLines(roster, calendarName, zoneId, now, zones) == Success(h + ["END:VCALENDAR"]);
    JoinConcat(h, ["END:VCALENDAR"], CRLF);
    HeaderJoin(calendarName);
  }

  /** Any event whose block fails makes the whole export fail. */
  lemma CalendarFailsIfAnEventFails(roster: JsonObject, calendarName: string, zoneId: string, now: Instant, zones: ZoneRules, k: nat)
    requires k < |ListItems(Lookup(roster, "events"))|
    requires ListItems(Lookup(roster, "events"))[k].JObject?
    requires EventLines(ListItems(Lookup(roster, "events"))[k].fields, zoneId, now, zones).Failure?
    ensures CalendarText(roster, calendarName, zoneId, now, zones).Failure?
  {
    var items := ListItems(Lookup(roster, "events"));
    assert EntryFn(zoneId, now, zones)(items[k]) == EventLines(items[k].fields, zoneId, now, zones);
    GatherFailsIfAnyFails(items, k, EntryFn(zoneId, now, zones));
  }

  // ---------------------------------------------------------------------------------
  // One event's block
  // ---------------------------------------------------------------------------------

  /** An event with both times present, unfolded: its block is BlockLines of the parsed pieces. */
  lemma EventLinesUnfold(event: JsonObject, zoneId: string, now: Instant, zones: ZoneRules)
    requires Lookup(event, "start_utc") != JNull && Lookup(event, "end_utc") != JNull
    requires EventLines(event, zoneId, now, zones).Success?
    ensures var startUtc := ToJavaString(Lookup(event, "start_utc"));
      var endUtc := ToJavaString(Lookup(event, "end_utc"));
      ParseUtc(startUtc).Success? && ParseUtc(endUtc).Success?
      && SpanLines(IsAllDay(event), ParseUtc(startUtc).value, ParseUtc(endUtc).value).Success?
      && DescriptionText(event, zoneId, zones).Success?
      && EventLines(event, zoneId, now, zones).value
         == BlockLines(DutyType(event), UidOf(DutyType(event), startUtc, endUtc), now,
                       SpanLines(IsAllDay(event), ParseUtc(startUtc).value, ParseUtc(endUtc).value).value,
                       DescriptionText(event, zoneId, zones).value)
  {
    var startUtc := ToJavaString(Lookup(event, "start_utc"));
    var endUtc := ToJavaString(Lookup(event, "end_utc"));
    assert EventLines(event, zoneId, now, zones) == EventBlock(event, startUtc, endUtc, zoneId, now, zones);
  }

  /** Where each line of a block sits. */
  lemma BlockLinesAt(dutyType: string, uid: string, now: Instant, span: seq<string>, description: string)
    requires |span| == 2
    ensures var b := BlockLines(dutyType, uid, now, span, description);
      |b| == 8 + |ColorLines(dutyType)|
      && b[0] == "BEGIN:VEVENT" && b[1] == "UID:" + uid && b[2] == "DTSTAMP:" + IcsDateTime(now)
      && b[3] == span[0] && b[4] == span[1]
      && b[5] == "SUMMARY:" + EscapeIcs(Some(dutyType)) && b[6] == "DESCRIPTION:" + EscapeIcs(Some(description))
      && b[7..|b| - 1] == ColorLines(dutyType) && b[|b| - 1] == "END:VEVENT"
  {
    var head := ["BEGIN:VEVENT", "UID:" + uid, "DTSTAMP:" + IcsDateTime(now)];
    var text := ["SUMMARY:" + EscapeIcs(Some(dutyType)), "DESCRIPTION:" + EscapeIcs(Some(description))];
    var color := ColorLines(dutyType);
    SevenAndMore(head, span, text, color, "END:VEVENT");
  }

  lemma SevenAndMore(head: seq<string>, span: seq<string>, text: seq<string>, color: seq<string>, last: string)
    requires |head| == 3 && |span| == 2 && |text| == 2
    ensures var b := head + span + text + color + [last];
      |b| == 8 + |color| && b[..3] == head && b[3..5] == span && b[5..7] == text
      && b[7..|b| - 1] == color && b[|b| - 1] == last
  {
  }

  /** An event yields no lines exactly when its start or end is missing (or it fails). */
  lemma EventSkippedIffTimeMissing(event: JsonObject, zoneId: string, now: Instant, zones: ZoneRules)
    ensures EventLines(event, zoneId, now, zones) == Success([])
        <==> Lookup(event, "start_utc") == JNull || Lookup(event, "end_utc") == JNull
  {
    if Lookup(event, "start_utc") != JNull && Lookup(event, "end_utc") != JNull {
      var r := EventLines(event, zoneId, now, zones);
      if r.Success? {
        EventLinesUnfold(event, zoneId, now, zones);
        var startUtc := ToJavaString(Lookup(event, "start_utc"));
        var endUtc := ToJavaString(Lookup(event, "end_utc"));
        BlockLinesAt(DutyType(event), UidOf(DutyType(event), startUtc, endUtc), now,
                     SpanLines(IsAllDay(event), ParseUtc(startUtc).value, ParseUtc(endUtc).value).value,
                     DescriptionText(event, zoneId, zones).value);
      }
    }
  }

  /**
   * A block starts with BEGIN:VEVENT, its UID and DTSTAMP; SUMMARY and DESCRIPTION are
   * escaped; COLOR appears exactly for the four mapped duty types; it ends with END:VEVENT.
   */
  lemma EventBlockShape(event: JsonObject, zoneId: string, now: Instant, zones: ZoneRules)
    requires Lookup(event, "start_utc") != JNull && Lookup(event, "end_utc") != JNull
    requires EventLines(event, zoneId, now, zones).Success?
    ensures var ls := EventLines(event, zoneId, now, zones).value;
      var dutyType := DutyType(event);
      DescriptionText(event, zoneId, zones).Success?
      && |ls| == (if dutyType in COLOR_MAP then 9 else 8)
      && ls[0] == "BEGIN:VEVENT"
      && ls[1] == "UID:" + (dutyType + "|" + ToJavaString(Lookup(event, "start_utc")) + "|" + ToJavaString(Lookup(event, "end_utc")))
      && ls[2] == "DTSTAMP:" + IcsDateTime(now)
      && ls[5] == "SUMMARY:" + EscapeIcs(Some(dutyType))
      && ls[6] == "DESCRIPTION:" + EscapeIcs(Some(DescriptionText(event, zoneId, zones).value))
      && (dutyType in COLOR_MAP ==> ls[7] == "COLOR:" + COLOR_MAP[dutyType])
      && ls[|ls| - 1] == "END:VEVENT"
  {
    EventLinesUnfold(event, zoneId, now, zones);
    var startUtc := ToJavaString(Lookup(event, "start_utc"));
    var endUtc := ToJavaString(Lookup(event, "end_utc"));
    var dutyType := DutyType(event);
    var ls := EventLines(event, zoneId, now, zones).value;
    BlockLinesAt(dutyType, UidOf(dutyType, startUtc, endUtc), now,
                 SpanLines(IsAllDay(event), ParseUtc(startUtc).value, ParseUtc(endUtc).value).value,
                 DescriptionText(event, zoneId, zones).value);
    if dutyType in COLOR_MAP {
      assert ls[7..|ls| - 1] == ["COLOR:" + COLOR_MAP[dutyType]];
    }
  }

  /**
   * DTSTART/DTEND: in all-day mode the UTC date of the start and the day after it as DATE
   * values (the end time is not used); otherwise both instants as UTC DATE-TIMEs.
   */
  lemma EventSpan(event: JsonObject, zoneId: string, now: Instant, zones: ZoneRules)
    requires Lookup(event, "start_utc") != JNull && Lookup(event, "end_utc") != JNull
    requires EventLines(event, zoneId, now, zones).Success?
    ensures ParseUtc(ToJavaString(Lookup(event, "start_utc"))).Success?
    ensures ParseUtc(ToJavaString(Lookup(event, "end_utc"))).Success?
    ensures var ls := EventLines(event, zoneId, now, zones).value;
      var start := ParseUtc(ToJavaString(Lookup(event, "start_utc"))).value;
      var end := ParseUtc(ToJavaString(Lookup(event, "end_utc"))).value;
      |ls| >= 5
      && (IsAllDay(event) ==>
            BasicIsoDate(start.date).Some? && BasicIsoDate(NextDay(start.date)).Some?
            && ls[3] == "DTSTART;VALUE=DATE:" + BasicIsoDate(start.date).value
            && ls[4] == "DTEND;VALUE=DATE:" + BasicIsoDate(NextDay(start.date)).value)
      && (!IsAllDay(event) ==>
            ls[3] == "DTSTART:" + IcsDateTime(start) && ls[4] == "DTEND:" + IcsDateTime(end))
  {
    EventLinesUnfold(event, zoneId, now, zones);
    var startUtc := ToJavaString(Lookup(event, "start_utc"));
    var endUtc := ToJavaString(Lookup(event, "end_utc"));
    var dutyType := DutyType(event);
    BlockLinesAt(dutyType, UidOf(dutyType, startUtc, endUtc), now,
                 SpanLines(IsAllDay(event), ParseUtc(startUtc).value, ParseUtc(endUtc).value).value,
                 DescriptionText(event, zoneId, zones).value);
  }

  /** All-day mode needs the JSON Boolean true (or duty type A/L); the string "true" does not count. */
  lemma AllDayNeedsBoolean(event: JsonObject)
    ensures IsAllDay(event) <==> Lookup(event, "is_all_day") == JBool(true) || DutyType(event) == "A/L"
  {
  }

  /** An all-day start whose UTC date is the last day of year 9999 cannot be exported. */
  lemma AllDayAtYearEndOf9999Fails(event: JsonObject, zoneId: string, now: Instant, zones: ZoneRules)
    requires Lookup(event, "start_utc") != JNull && Lookup(event, "end_utc") != JNull
    requires IsAllDay(event)
    requires ParseUtc(ToJavaString(Lookup(event, "start_utc"))).Success?
    requires ParseUtc(ToJavaString(Lookup(event, "start_utc"))).value.date == Date(9999, 12, 31)
    requires ParseUtc(ToJavaString(Lookup(event, "end_utc"))).Success?
    ensures EventLines(event, zoneId, now, zones) == Failure(DateNotPrintable(Date(10000, 1, 1)))
  {
    var startUtc := ToJavaString(Lookup(event, "start_utc"));
    var endUtc := ToJavaString(Lookup(event, "end_utc"));
    var start, end := ParseUtc(startUtc).value, ParseUtc(endUtc).value;
    YearEndSpanFails(start, end);
    EventLinesPresent(event, zoneId, now, zones);
    SpanFailureFailsBlock(event, startUtc, endUtc, zoneId, now, zones);
  }

  lemma YearEndSpanFails(start: DateTime, end: DateTime)
    requires start.date == Date(9999, 12, 31) && ValidDateTime(start) && ValidDateTime(end)
    ensures SpanLines(true, start, end) == Failure(DateNotPrintable(Date(10000, 1, 1)))
  {
    assert NextDay(start.date) == Date(10000, 1, 1);
    assert BasicIsoDate(Date(10000, 1, 1)).None?;
  }

  /** An event with both time texts present is the block of those texts. */
  lemma EventLinesPresent(event: JsonObject, zoneId: string, now: Instant, zones: ZoneRules)
    requires Lookup(event, "start_utc") != JNull && Lookup(event, "end_utc") != JNull
    ensures EventLines(event, zoneId, now, zones)
         == EventBlock(event, ToJavaString(Lookup(event, "start_utc")), ToJavaString(Lookup(event, "end_utc")), zoneId, now, zones)
  {
  }

  lemma SpanFailureFailsBlock(event: JsonObject, startUtc: string, endUtc: string, zoneId: string, now: Instant, zones: ZoneRules)
    requires ParseUtc(startUtc).Success? && ParseUtc(endUtc).Success?
    requires SpanLines(IsAllDay(event), ParseUtc(startUtc).value, ParseUtc(endUtc).value).Failure?
    ensures EventBlock(event, startUtc, endUtc, zoneId, now, zones)
         == Failure(SpanLines(IsAllDay(event), ParseUtc(startUtc).value, ParseUtc(endUtc).value).error)
  {
  }

  // ---------------------------------------------------------------------------------
  // The description
  // ---------------------------------------------------------------------------------

  /** The number of map entries in a list: each contributes exactly one line. */
  function CountObjects(items: seq<Json>): (n: nat)
    ensures n <= |items|
  {
    if items == [] then 0 else (if items[0].JObject? then 1 else 0) + CountObjects(items[1..])
  }

  lemma {:induction false} GatherCountsObjects(items: seq<Json>, f: Json -> Result<seq<string>, ExportError>)
    requires forall x :: f(x).Success? ==> |f(x).value| == (if x.JObject? then 1 else 0)
    ensures Gather(items, f).Success? ==> |Gather(items, f).value| == CountObjects(items)
  {
    if items != [] {
      GatherCountsObjects(items[1..], f);
    }
  }

  lemma Framed2(a: string, b: string, mid: seq<string>, z: string)
    ensures var l := [a, b] + mid + [z];
      |l| == 3 + |mid| && l[0] == a && l[1] == b && l[2..|l| - 1] == mid && l[|l| - 1] == z
  {
  }

  function DescriptionDuty(event: JsonObject): string
  {
    StringOr(Lookup(event, "duty_type"), "")
  }

  /**
   * Every template needs both duty times parsed and the zone known, whatever the duty
   * type, including A/L, whose text uses neither.
   */
  lemma DescriptionNeedsTimesAndZone(event: JsonObject, zoneId: string, zones: ZoneRules)
    ensures var startText := StringOr(Lookup(event, "start_utc"), "");
      var endText := StringOr(Lookup(event, "end_utc"), "");
      var r := DescriptionLines(event, zoneId, zones);
      (ParseUtc(startText).Failure? ==> r == Failure(InvalidTimestamp(startText)))
      && (ParseUtc(startText).Success? && ParseUtc(endText).Failure? ==> r == Failure(InvalidTimestamp(endText)))
      && (ParseUtc(startText).Success? && ParseUtc(endText).Success? && zones(ParseUtc(startText).value, zoneId).None?
          ==> r == Failure(UnknownZone(zoneId)))
  {
  }

  /** FLIGHT and DH: CHECK-IN, one line per sector object in list order, CHECK-OUT. */
  lemma FlightDescription(event: JsonObject, zoneId: string, zones: ZoneRules)
    requires DescriptionDuty(event) == "FLIGHT" || DescriptionDuty(event) == "DH"
    requires DescriptionLines(event, zoneId, zones).Success?
    ensures DutyTimesOf(event, zoneId, zones).Success?
    ensures var ls := DescriptionLines(event, zoneId, zones).value;
      var times := DutyTimesOf(event, zoneId, zones).value;
      |ls| == 2 + CountObjects(ListItems(Lookup(event, "flights")))
      && ls[0] == "CHECK-IN " + times.checkinZ + " (" + times.checkinLt + ")"
      && ls[|ls| - 1] == "CHECK-OUT " + times.checkoutZ + " (" + times.checkoutLt + ")"
      && ls[1..|ls| - 1] == Gather(ListItems(Lookup(event, "flights")), SectorLine).value
  {
    var flights := ListItems(Lookup(event, "flights"));
    GatherCountsObjects(flights, SectorLine);
    var times := DutyTimesOf(event, zoneId, zones).value;
    var ls := DescriptionLines(event, zoneId, zones).value;
    assert ls[1..|ls| - 1] == Gather(flights, SectorLine).value;
  }

  /** HSBY: a title, the time range, and a Location line only when the location is not blank. */
  lemma StandbyDescription(event: JsonObject, zoneId: string, zones: ZoneRules)
    requires DescriptionDuty(event) == "HSBY"
    requires DescriptionLines(event, zoneId, zones).Success?
    ensures var ls := DescriptionLines(event, zoneId, zones).value;
      var location := Lookup(event, "location");
      2 <= |ls| <= 3
      && ls[0] == "Standby (HSBY)"
      && (|ls| == 3 <==> location != JNull && !IsBlank(ToJavaString(location)))
      && (|ls| == 3 ==> ls[2] == "Location: " + ToJavaString(location))
  {
    var times := DutyTimesOf(event, zoneId, zones).value;
    var location := StringValue(Lookup(event, "location"), None);
    assert DescriptionLines(event, zoneId, zones)
        == Success(StandbyLines(times.checkinZ, times.checkoutZ, times.checkinLt, times.checkoutLt, location));
    StandbyLinesShape(times.checkinZ, times.checkoutZ, times.checkinLt, times.checkoutLt, location);
  }

  lemma StandbyLinesShape(checkinZ: string, checkoutZ: string, checkinLt: string, checkoutLt: string, location: Option<string>)
    ensures var ls := StandbyLines(checkinZ, checkoutZ, checkinLt, checkoutLt, location);
      2 <= |ls| <= 3 && ls[0] == "Standby (HSBY)"
      && (|ls| == 3 <==> location.Some? && !IsBlank(location.value))
      && (|ls| == 3 ==> ls[2] == "Location: " + location.value)
  {
  }

  /** A/L: the single line "Annual leave". */
  lemma AnnualLeaveDescription(event: JsonObject, zoneId: string, zones: ZoneRules)
    requires DescriptionDuty(event) == "A/L"
    requires DescriptionLines(event, zoneId, zones).Success?
    ensures DescriptionLines(event, zoneId, zones).value == ["Annual leave"]
  {
  }

  /**
   * Any other duty type: "Duty: " and the type, CHECK-IN, the activity lines (one per activity
   * object, in list order), CHECK-OUT.
   */
  lemma OtherDutyDescription(event: JsonObject, zoneId: string, zones: ZoneRules)
    requires DescriptionDuty(event) !in {"FLIGHT", "DH", "HSBY", "A/L"}
    requires DescriptionLines(event, zoneId, zones).Success?
    ensures DutyTimesOf(event, zoneId, zones).Success?
    ensures var ls := DescriptionLines(event, zoneId, zones).value;
      var times := DutyTimesOf(event, zoneId, zones).value;
      |ls| == 3 + CountObjects(ListItems(Lookup(event, "activities")))
      && ls[0] == "Duty: " + DescriptionDuty(event)
      && ls[1] == "CHECK-IN " + times.checkinZ + " (" + times.checkinLt + ")"
      && ls[|ls| - 1] == "CHECK-OUT " + times.checkoutZ + " (" + times.checkoutLt + ")"
      && ls[2..|ls| - 1] == Gather(ListItems(Lookup(event, "activities")), ActivityLine).value
  {
    var activities := ListItems(Lookup(event, "activities"));
    GatherCountsObjects(activities, ActivityLine);
    var times := DutyTimesOf(event, zoneId, zones).value;
    Framed2("Duty: " + DescriptionDuty(event), "CHECK-IN " + times.checkinZ + " (" + times.checkinLt + ")",
            Gather(activities, ActivityLine).value, "CHECK-OUT " + times.checkoutZ + " (" + times.checkoutLt + ")");
  }

  /**
   * With no duty_type the SUMMARY says "DUTY" but the description falls back to "" and
   * opens with the bare "Duty: ".
   */
  lemma MissingDutyTypeDefaultsDiffer(event: JsonObject, zoneId: string, zones: ZoneRules)
    requires Lookup(event, "duty_type") == JNull
    requires DescriptionLines(event, zoneId, zones).Success?
    ensures DutyType(event) == "DUTY"
    ensures DescriptionLines(event, zoneId, zones).value[0] == "Duty: "
  {
    OtherDutyDescription(event, zoneId, zones);
  }

  /** A FLIGHT or DH event with a sector lacking its departure time fails the event. */
  lemma MissingSectorTimeFailsEvent(event: JsonObject, zoneId: string, now: Instant, zones: ZoneRules, k: nat)
    requires Lookup(event, "start_utc") != JNull && Lookup(event, "end_utc") != JNull
    requires DescriptionDuty(event) == "FLIGHT" || DescriptionDuty(event) == "DH"
    requires k < |ListItems(Lookup(event, "flights"))|
    requires ListItems(Lookup(event, "flights"))[k].JObject?
    requires Lookup(ListItems(Lookup(event, "flights"))[k].fields, "departure_time_utc") == JNull
    ensures EventLines(event, zoneId, now, zones).Failure?
  {
    var flights := ListItems(Lookup(event, "flights"));
    SectorWithoutDepartureFails(flights[k]);
    GatherFailsIfAnyFails(flights, k, SectorLine);
    FlightDescriptionFails(event, zoneId, zones);
    EventFailsWithDescription(event, zoneId, now, zones);
  }

  lemma SectorWithoutDepartureFails(flight: Json)
    requires flight.JObject? && Lookup(flight.fields, "departure_time_utc") == JNull
    ensures SectorLine(flight).Failure?
  {
    assert ParseUtc(StringOr(Lookup(flight.fields, "departure_time_utc"), "")).Failure?;
  }

  lemma FlightDescriptionFails(event: JsonObject, zoneId: string, zones: ZoneRules)
    requires DescriptionDuty(event) == "FLIGHT" || DescriptionDuty(event) == "DH"
    requires Gather(ListItems(Lookup(event, "flights")), SectorLine).Failure?
    ensures DescriptionText(event, zoneId, zones).Failure?
  {
    var times := DutyTimesOf(event, zoneId, zones);
    if times.Success? {
      assert DescriptionBody(DescriptionDuty(event), event, times.value).Failure?;
    }
    assert DescriptionLines(event, zoneId, zones).Failure?;
  }

  lemma EventFailsWithDescription(event: JsonObject, zoneId: string, now: Instant, zones: ZoneRules)
    requires Lookup(event, "start_utc") != JNull && Lookup(event, "end_utc") != JNull
    requires DescriptionText(event, zoneId, zones).Failure?
    ensures EventLines(event, zoneId, now, zones).Failure?
  {
    EventLinesPresent(event, zoneId, now, zones);
    BlockFailsWithDescription(event, ToJavaString(Lookup(event, "start_utc")), ToJavaString(Lookup(event, "end_utc")),
                              zoneId, now, zones);
  }

  lemma BlockFailsWithDescription(event: JsonObject, startUtc: string, endUtc: string, zoneId: string, now: Instant, zones: ZoneRules)
    requires DescriptionText(event, zoneId, zones).Failure?
    ensures EventBlock(event, startUtc, endUtc, zoneId, now, zones).Failure?
  {
    var start, end := ParseUtc(startUtc), ParseUtc(endUtc);
    if start.Success? && end.Success? {
      BodyFailsWithDescription(event, UidOf(DutyType(event), startUtc, endUtc), start.value, end.value, zoneId, now, zones);
    }
  }

  lemma BodyFailsWithDescription(event: JsonObject, uid: string, start: DateTime, end: DateTime, zoneId: string, now: Instant, zones: ZoneRules)
    requires ValidDateTime(start) && ValidDateTime(end)
    requires DescriptionText(event, zoneId, zones).Failure?
    ensures EventBody(event, uid, start, end, zoneId, now, zones).Failure?
  {
  }

  // ---------------------------------------------------------------------------------
  // Only DTSTAMP depends on the current instant
  // ---------------------------------------------------------------------------------

  predicate IsStampLine(line: string)
  {
    |line| >= 8 && line[..8] == "DTSTAMP:"
  }

  /** The lines with every DTSTAMP line removed. */
  function WithoutStamps(lines: seq<string>): (r: seq<string>)
    ensures |r| <= |lines|
  {
    if lines == [] then []
    else (if IsStampLine(lines[0]) then [] else [lines[0]]) + WithoutStamps(lines[1..])
  }

  lemma {:induction false} WithoutStampsConcat(a: seq<string>, b: seq<string>)
    ensures WithoutStamps(a + b) == WithoutStamps(a) + WithoutStamps(b)
  {
    if a != [] {
      assert (a + b)[1..] == a[1..] + b;
      WithoutStampsConcat(a[1..], b);
    } else {
      assert a + b == b;
    }
  }

  /** Two results that fail alike, or succeed with the same lines apart from DTSTAMP lines. */
  predicate SameUpToStamps(r1: Result<seq<string>, ExportError>, r2: Result<seq<string>, ExportError>)
  {
    (r1.Failure? && r1 == r2)
    || (r1.Success? && r2.Success? && WithoutStamps(r1.value) == WithoutStamps(r2.value))
  }

  lemma StampLine(x: string)
    ensures IsStampLine("DTSTAMP:" + x)
  {
    assert ("DTSTAMP:" + x)[..8] == "DTSTAMP:";
  }

  lemma DropStamp(first: seq<string>, stamp: string, rest: seq<string>)
    requires IsStampLine(stamp)
    ensures WithoutStamps(first + [stamp] + rest) == WithoutStamps(first) + WithoutStamps(rest)
  {
    WithoutStampsConcat(first + [stamp], rest);
    WithoutStampsConcat(first, [stamp]);
    assert WithoutStamps([stamp]) == [] by {
      assert [stamp][0] == stamp && [stamp][1..] == [];
    }
    assert WithoutStamps(first) + [] == WithoutStamps(first);
  }

  /** A block splits around its third line, the DTSTAMP. */
  lemma SplitAtStamp(a: string, b: string, c: string, span: seq<string>, d: string, e: string,
                     color: seq<string>, f: string)
    ensures [a, b, c] + span + [d, e] + color + [f] == [a, b] + [c] + (span + [d, e] + color + [f])
  {
  }

  /** Two blocks built at different instants differ only in their DTSTAMP line. */
  lemma BlockIgnoresNow(dutyType: string, uid: string, now1: Instant, now2: Instant, span: seq<string>, description: string)
    ensures WithoutStamps(BlockLines(dutyType, uid, now1, span, description))
         == WithoutStamps(BlockLines(dutyType, uid, now2, span, description))
  {
    var d, e := "SUMMARY:" + EscapeIcs(Some(dutyType)), "DESCRIPTION:" + EscapeIcs(Some(description));
    var color := ColorLines(dutyType);
    var first := ["BEGIN:VEVENT", "UID:" + uid];
    var rest := span + [d, e] + color + ["END:VEVENT"];
    var s1, s2 := "DTSTAMP:" + IcsDateTime(now1), "DTSTAMP:" + IcsDateTime(now2);
    SplitAtStamp("BEGIN:VEVENT", "UID:" + uid, s1, span, d, e, color, "END:VEVENT");
    SplitAtStamp("BEGIN:VEVENT", "UID:" + uid, s2, span, d, e, color, "END:VEVENT");
    StampLine(IcsDateTime(now1));
    StampLine(IcsDateTime(now2));
    DropStamp(first, s1, rest);
    DropStamp(first, s2, rest);
  }

  lemma EventIgnoresNow(event: JsonObject, zoneId: string, now1: Instant, now2: Instant, zones: ZoneRules)
    ensures SameUpToStamps(EventLines(event, zoneId, now1, zones), EventLines(event, zoneId, now2, zones))
  {
    if Lookup(event, "start_utc") != JNull && Lookup(event, "end_utc") != JNull {
      var startUtc := ToJavaString(Lookup(event, "start_utc"));
      var endUtc := ToJavaString(Lookup(event, "end_utc"));
      assert EventLines(event, zoneId, now1, zones) == EventBlock(event, startUtc, endUtc, zoneId, now1, zones);
      assert EventLines(event, zoneId, now2, zones) == EventBlock(event, startUtc, endUtc, zoneId, now2, zones);
      if ParseUtc(startUtc).Success? && ParseUtc(endUtc).Success? {
        var start, end := ParseUtc(startUtc).value, ParseUtc(endUtc).value;
        var uid := UidOf(DutyType(event), startUtc, endUtc);
        assert EventBlock(event, startUtc, endUtc, zoneId, now1, zones) == EventBody(event, uid, start, end, zoneId, now1, zones);
        assert EventBlock(event, startUtc, endUtc, zoneId, now2, zones) == EventBody(event, uid, start, end, zoneId, now2, zones);
        var span := SpanLines(IsAllDay(event), start, end);
        var description := DescriptionText(event, zoneId, zones);
        if span.Success? && description.Success? {
          BlockIgnoresNow(DutyType(event), uid, now1, now2, span.value, description.value);
        }
      }
    }
  }

  lemma {:induction false} GatherIgnoresNow(items: seq<Json>, zoneId: string, now1: Instant, now2: Instant, zones: ZoneRules)
    ensures SameUpToStamps(Gather(items, EntryFn(zoneId, now1, zones)), Gather(items, EntryFn(zoneId, now2, zones)))
  {
    if items != [] {
      var f1, f2 := EntryFn(zoneId, now1, zones), EntryFn(zoneId, now2, zones);
      GatherIgnoresNow(items[1..], zoneId, now1, now2, zones);
      if items[0].JObject? {
        EventIgnoresNow(items[0].fields, zoneId, now1, now2, zones);
      }
      var h1, h2 := f1(items[0]), f2(items[0]);
      var t1, t2 := Gather(items[1..], f1), Gather(items[1..], f2);
      if h1.Success? && h2.Success? && t1.Success? && t2.Success? {
        WithoutStampsConcat(h1.value, t1.value);
        WithoutStampsConcat(h2.value, t2.value);
      }
    }
  }

  /**
   * Exporting the same roster at two different instants gives the same lines apart from
   * the DTSTAMP lines, and the same failure when it fails.
   */
  lemma CalendarIgnoresNow(roster: JsonObject, calendarName: string, zoneId: string, now1: Instant, now2: Instant, zones: ZoneRules)
    ensures SameUpToStamps(CalendarLines(roster, calendarName, zoneId, now1, zones),
                           CalendarLines(roster, calendarName, zoneId, now2, zones))
  {
    var items := ListItems(Lookup(roster, "events"));
    GatherIgnoresNow(items, zoneId, now1, now2, zones);
    var b1, b2 := EventBlocks(roster, zoneId, now1, zones), EventBlocks(roster, zoneId, now2, zones);
    if b1.Success? && b2.Success? {
      var h := Header(calendarName);
      WithoutStampsConcat(h + b1.value, ["END:VCALENDAR"]);
      WithoutStampsConcat(h + b2.value, ["END:VCALENDAR"]);
      WithoutStampsConcat(h, b1.value);
      WithoutStampsConcat(h, b2.value);
    }
  }
}
