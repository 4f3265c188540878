# ros2cal core in Dafny

ros2cal turns a photographed airline duty roster into JSON and, on request, into an
iCalendar file. An upload passes through these steps:

1. The controller checks it.
2. The conversion service pre-processes the image.
3. The service sends it to an OCR call, then sends the transcription to a parse call.
4. It decodes the parse output as a JSON object.
5. The exporter writes that object as RFC 5545 text.

This project models that core and proves what it promises.

- **`IcsExporter`** (`ics_exporter.dfy`) and **`IcsProperties`** (`ics_properties.dfy`) model RosterIcsExporter.
  - The pure helpers are functions: `escapeIcs`, `parseUtc`, `formatTimeZ`, `stringValue` and `booleanValue`.
  - `jsonToIcs`, `eventToIcs` and `buildDescription` append to a local list of lines. Each is a method with loops, proved equal to a specification function: `CalendarText`, `EventLines` or `DescriptionText`.
  - The properties are lemmas about those functions: the VCALENDAR/VEVENT envelope (section 3.4 and section 3.6.1 of RFC 5545), TEXT escaping (section 3.3.11) and its round trip, DATE and DATE-TIME values (sections 3.3.4 and 3.3.5), UID and DTSTAMP, COLOR (section 5.9 of RFC 7986), the description templates, the failure cases, and that only DTSTAMP depends on the clock.
- **Supporting modules:**
  - `JsonValue` is the decoded JSON tree.
  - `CivilTime` and `Timestamps` cover Gregorian dates, the strict ISO_OFFSET_DATE_TIME reader and the three print patterns.
  - `Text` holds the java.lang.String operations used.
  - `JavaInt` holds 32-bit int and byte.
- **`Usage`** models the CallUsage class, with its fields, setters and effective total.
- **`OpenAiClient`** models the client's helpers and the two calls built from them:
  - the API-key guard, the cache-key policy and status mapping;
  - output-text concatenation and usage extraction;
  - log truncation.
- **`RosterController`** covers the upload checks in order, signature sniffing (section 3.1 of RFC 2083; ITU-T T.81 Table B.1) and format normalisation.
- **`ConversionService`** models parseRoster as a composition of abstract stages.
- **`ImagePreprocessor`** models preparePng's width rule and failures.

The following enter as parameters:
- the time-zone database (`zones`);
- the DTSTAMP instant (`now`);
- the network (`send`);
- HttpStatus.resolve (`knownStatus`);
- the random UUID (`freshKey`);
- ImageIO (`decode`, `encode`, `readImage`);
- the service's collaborators and the JSON decoder (`Stages`).

Java exceptions are `Failure` values.

## Model

| member | source | states |
|---|---|---|
| IcsExporter.JsonToIcs | src/main/java/com/ryr/ros2cal_api/roster/RosterIcsExporter.java:26-47 | the text is CalendarText: header lines, the blocks of the map entries of "events" in list order, END:VCALENDAR, joined by CRLF; the first failing event ends the export with its error |
| IcsExporter.EventToIcs | src/main/java/com/ryr/ros2cal_api/roster/RosterIcsExporter.java:49-85 | the lines are EventLines: none when start_utc or end_utc is null, otherwise the parsed block, or the failure of a time that does not parse |
| IcsExporter.AppendEventLines | src/main/java/com/ryr/ros2cal_api/roster/RosterIcsExporter.java:62-84 | the appended lines are BlockLines of the span and the description: BEGIN, UID, DTSTAMP, DTSTART, DTEND, SUMMARY, DESCRIPTION, COLOR when mapped, END |
| IcsExporter.ColorOf | src/main/java/com/ryr/ros2cal_api/roster/RosterIcsExporter.java:17-21 | a colour exists exactly for FLIGHT, DH, HSBY and A/L, and it is that type's entry of the fixed map |
| IcsExporter.SpanToIcs | src/main/java/com/ryr/ros2cal_api/roster/RosterIcsExporter.java:66-75 | the DTSTART/DTEND lines equal SpanLines: DATE values of the start date and the next day in all-day mode, UTC DATE-TIMEs otherwise |
| IcsExporter.SpanLines | src/main/java/com/ryr/ros2cal_api/roster/RosterIcsExporter.java:66-75 | a successful span is exactly two lines |
| IcsExporter.BuildDescription | src/main/java/com/ryr/ros2cal_api/roster/RosterIcsExporter.java:87-146 | the description is DescriptionText: both duty times parsed and rendered, the template's lines joined with LF |
| IcsExporter.FillTemplate | src/main/java/com/ryr/ros2cal_api/roster/RosterIcsExporter.java:97-145 | the template lines equal DescriptionBody for the duty type |
| IcsExporter.CollectSectors | src/main/java/com/ryr/ros2cal_api/roster/RosterIcsExporter.java:101-115 | the loop's lines equal Gather over "flights" with SectorLine: one line per map entry, in order, stopping at the first bad time |
| IcsExporter.CollectActivities | src/main/java/com/ryr/ros2cal_api/roster/RosterIcsExporter.java:129-142 | the loop's lines equal Gather over "activities" with ActivityLine, in order, stopping at the first bad time |
| IcsExporter.SectorLine | src/main/java/com/ryr/ros2cal_api/roster/RosterIcsExporter.java:104-113 | a map entry yields exactly one line, any other entry none |
| IcsExporter.ActivityLine | src/main/java/com/ryr/ros2cal_api/roster/RosterIcsExporter.java:132-140 | a map entry yields exactly one line, any other entry none |
| IcsExporter.GatherStopsAtFailure | src/main/java/com/ryr/ros2cal_api/roster/RosterIcsExporter.java:36-43 | once a prefix of a list fails, the whole loop fails the same way; later items are not visited |
| IcsExporter.GatherFailsIfAnyFails | src/main/java/com/ryr/ros2cal_api/roster/RosterIcsExporter.java:36-43 | any failing item makes the whole loop fail |
| IcsExporter.GatherAppend | src/main/java/com/ryr/ros2cal_api/roster/RosterIcsExporter.java:36-43 | gathering a concatenation is gathering each part in order, first failure winning |
| IcsExporter.EscapeIcs | src/main/java/com/ryr/ros2cal_api/roster/RosterIcsExporter.java:167-173 | null escapes to "" |
| IcsExporter.EscapeIcsIsCharwise | src/main/java/com/ryr/ros2cal_api/roster/RosterIcsExporter.java:171-172 | the four sequential replacements equal escaping each character on its own: backslash first, so no backslash is doubled twice |
| IcsExporter.EscapeHasNoLineFeed | src/main/java/com/ryr/ros2cal_api/roster/RosterIcsExporter.java:167-173 | an escaped text contains no LF |
| IcsExporter.EscapeRoundTrip | src/main/java/com/ryr/ros2cal_api/roster/RosterIcsExporter.java:167-173 | decoding the four escapes of the escaped text recovers the original |
| IcsExporter.ParseUtc | src/main/java/com/ryr/ros2cal_api/roster/RosterIcsExporter.java:148-156 | a parsed value is a valid UTC date-time; a failure names the text; "" (a missing nested time) always fails |
| IcsExporter.ParseLocalWithOffset | src/main/java/com/ryr/ros2cal_api/roster/RosterIcsExporter.java:155 | a local date-time followed by any accepted offset (Z, z, ±HH, ±HH:MM, ±HH:MM:SS) parses to that local date-time at that offset |
| IcsExporter.ParseUtcRoundTrip | src/main/java/com/ryr/ros2cal_api/roster/RosterIcsExporter.java:152-155 | every instant of years 0..9999 written as YYYY-MM-DDTHH:MM:SSZ parses back to itself, through the Z to +00:00 rewrite |
| IcsExporter.ParseHourOnlyOffset | src/main/java/com/ryr/ros2cal_api/roster/RosterIcsExporter.java:155 | a local date-time followed by an hour-only offset "+HH" or "-HH" (up to 18) parses, and its UTC reading moved by that many hours is the local date-time |
| IcsExporter.FormatTimeZ | src/main/java/com/ryr/ros2cal_api/roster/RosterIcsExporter.java:158-160 | six characters: two digits reading back as the UTC hour, ':', two digits reading back as the minute, then 'z' |
| IcsExporter.FormatTimeLocal | src/main/java/com/ryr/ros2cal_api/roster/RosterIcsExporter.java:162-165 | fails with UnknownZone exactly when the zone id is unknown |
| IcsExporter.StringOr | src/main/java/com/ryr/ros2cal_api/roster/RosterIcsExporter.java:175-180 | null gives the fallback; a JSON string gives itself |
| IcsExporter.DutyType | src/main/java/com/ryr/ros2cal_api/roster/RosterIcsExporter.java:51 | a missing duty_type reads as "DUTY" |
| IcsProperties.CalendarEnvelope | src/main/java/com/ryr/ros2cal_api/roster/RosterIcsExporter.java:27-46 | every calendar text starts with the five header lines plus CRLF and ends with CRLF END:VCALENDAR, with no trailing CRLF |
| IcsProperties.CalendarWithoutEvents | src/main/java/com/ryr/ros2cal_api/roster/RosterIcsExporter.java:34-46 | a missing or non-list "events", or one with no maps, gives exactly the header and END:VCALENDAR |
| IcsProperties.NonObjectsGatherNothing | src/main/java/com/ryr/ros2cal_api/roster/RosterIcsExporter.java:36-42 | entries that are not maps contribute no lines |
| IcsProperties.CalendarFailsIfAnEventFails | src/main/java/com/ryr/ros2cal_api/roster/RosterIcsExporter.java:36-43 | any map entry whose block fails makes the export fail |
| IcsProperties.EventSkippedIffTimeMissing | src/main/java/com/ryr/ros2cal_api/roster/RosterIcsExporter.java:51-56 | an event yields zero lines if and only if start_utc or end_utc is missing |
| IcsProperties.EventLinesUnfold | src/main/java/com/ryr/ros2cal_api/roster/RosterIcsExporter.java:58-84 | a present event's block is BlockLines of its UID, parsed span and description |
| IcsProperties.BlockLinesAt | src/main/java/com/ryr/ros2cal_api/roster/RosterIcsExporter.java:62-83 | line positions inside a block: BEGIN, UID, DTSTAMP, span, SUMMARY, DESCRIPTION, colour lines, END |
| IcsProperties.EventBlockShape | src/main/java/com/ryr/ros2cal_api/roster/RosterIcsExporter.java:49-85 | the block begins BEGIN:VEVENT, has UID "dutyType\|start_utc\|end_utc" from the raw texts, DTSTAMP of now, escaped SUMMARY and DESCRIPTION, COLOR exactly for the four mapped types after DESCRIPTION, ends END:VEVENT |
| IcsProperties.EventSpan | src/main/java/com/ryr/ros2cal_api/roster/RosterIcsExporter.java:66-75 | all-day: DTSTART is the start's UTC date and DTEND the next calendar day, whatever end_utc says; otherwise both UTC DATE-TIMEs |
| IcsProperties.AllDayNeedsBoolean | src/main/java/com/ryr/ros2cal_api/roster/RosterIcsExporter.java:66 | all-day holds iff is_all_day is the JSON Boolean true or the duty type is A/L |
| IcsProperties.AllDayAtYearEndOf9999Fails | src/main/java/com/ryr/ros2cal_api/roster/RosterIcsExporter.java:68-71 | every all-day event whose start falls on 9999-12-31 (UTC), at any time of day, fails: BASIC_ISO_DATE cannot print the next day in year 10000 |
| IcsProperties.DescriptionNeedsTimesAndZone | src/main/java/com/ryr/ros2cal_api/roster/RosterIcsExporter.java:87-95 | every template first needs both times parsed and the zone known, A/L included |
| IcsProperties.FlightDescription | src/main/java/com/ryr/ros2cal_api/roster/RosterIcsExporter.java:99-116 | FLIGHT/DH: CHECK-IN, one line per flight map in order, CHECK-OUT; 2 + map count lines |
| IcsProperties.StandbyDescription | src/main/java/com/ryr/ros2cal_api/roster/RosterIcsExporter.java:117-123 | HSBY: title, time range, and a Location line iff the location is present and not blank |
| IcsProperties.AnnualLeaveDescription | src/main/java/com/ryr/ros2cal_api/roster/RosterIcsExporter.java:124-125 | A/L: exactly "Annual leave" |
| IcsProperties.OtherDutyDescription | src/main/java/com/ryr/ros2cal_api/roster/RosterIcsExporter.java:126-144 | other types: "Duty: type", CHECK-IN, the activity lines (one per activity map, in list order), CHECK-OUT |
| IcsProperties.GatherCountsObjects | src/main/java/com/ryr/ros2cal_api/roster/RosterIcsExporter.java:102-115 | a successful per-map loop yields as many lines as the list has maps |
| IcsProperties.MissingDutyTypeDefaultsDiffer | src/main/java/com/ryr/ros2cal_api/roster/RosterIcsExporter.java:88 | with no duty_type the SUMMARY type is "DUTY" while the description opens with "Duty: " |
| IcsProperties.MissingSectorTimeFailsEvent | src/main/java/com/ryr/ros2cal_api/roster/RosterIcsExporter.java:110 | a flight map without departure_time_utc makes its event fail instead of using the current time |
| IcsProperties.WithoutStampsConcat | src/main/java/com/ryr/ros2cal_api/roster/RosterIcsExporter.java:46 | removing DTSTAMP lines distributes over concatenation |
| IcsProperties.BlockIgnoresNow | src/main/java/com/ryr/ros2cal_api/roster/RosterIcsExporter.java:64 | two blocks built at different instants differ only in their DTSTAMP line |
| IcsProperties.EventIgnoresNow | src/main/java/com/ryr/ros2cal_api/roster/RosterIcsExporter.java:49-85 | an event exported at two instants gives the same lines apart from DTSTAMP, or the same failure |
| IcsProperties.GatherIgnoresNow | src/main/java/com/ryr/ros2cal_api/roster/RosterIcsExporter.java:36-43 | the events loop at two instants agrees apart from DTSTAMP lines |
| IcsProperties.CalendarIgnoresNow | src/main/java/com/ryr/ros2cal_api/roster/RosterIcsExporter.java:26-47 | a roster exported at two instants gives the same calendar apart from DTSTAMP lines, or the same failure |
| JsonValue.StringValue | src/main/java/com/ryr/ros2cal_api/roster/RosterIcsExporter.java:175-180 | null gives the fallback, anything else its toString, a string itself |
| JsonValue.BooleanValue | src/main/java/com/ryr/ros2cal_api/roster/RosterIcsExporter.java:182-187 | only a JSON Boolean counts; anything else, the string "true" included, gives the fallback |
| JsonValue.ListItems | src/main/java/com/ryr/ros2cal_api/roster/RosterIcsExporter.java:35-36 | a loop after an instanceof List test visits the list's items, or none |
| JsonValue.Lookup | src/main/java/com/ryr/ros2cal_api/roster/RosterIcsExporter.java:51 | an absent key reads as null; a non-null value is stored under the key |
| JsonValue.LookupLastEntry | src/main/java/com/ryr/ros2cal_api/roster/RosterIcsExporter.java:51 | with a repeated key the last entry's value is read, as the decoded map keeps the last value put |
| Timestamps.ParseOffsetDateTime | src/main/java/com/ryr/ros2cal_api/roster/RosterIcsExporter.java:155 | a parsed value has a valid local date-time, a four-digit year and an offset within 18 hours |
| Timestamps.ParseOffset | src/main/java/com/ryr/ros2cal_api/roster/RosterIcsExporter.java:155 | an accepted offset lies within 18 hours; a sign and two digits up to 18 alone is that many whole hours, minutes and colons being optional in the lenient offset reader |
| Timestamps.ToUtc | src/main/java/com/ryr/ros2cal_api/roster/RosterIcsExporter.java:155 | the UTC reading shifted back by the offset is the local reading |
| Timestamps.HourMinute | src/main/java/com/ryr/ros2cal_api/roster/RosterIcsExporter.java:159 | HH:mm is five characters: two digits reading back as the hour, ':', two digits reading back as the minute |
| Timestamps.IcsDateTimeFields | src/main/java/com/ryr/ros2cal_api/roster/RosterIcsExporter.java:23 | for years 1..9999 the DTSTAMP/DTSTART/DTEND text is sixteen characters, 'T' at 8 and 'Z' at 15, each field reading back as the instant's year, month, day, hour, minute and second |
| Timestamps.BasicIsoDate | src/main/java/com/ryr/ros2cal_api/roster/RosterIcsExporter.java:70-71 | printable iff the year is 0..9999; then eight digits reading back as year, month and day |
| Timestamps.YearOfEraText | src/main/java/com/ryr/ros2cal_api/roster/RosterIcsExporter.java:23 | years 1..9999 print as four zero-padded digits |
| CivilTime.NextDay | src/main/java/com/ryr/ros2cal_api/roster/RosterIcsExporter.java:69 | plusDays(1) gives a valid date in the same year, or 1 January after 31 December |
| CivilTime.NextPrevInverse | src/main/java/com/ryr/ros2cal_api/roster/RosterIcsExporter.java:69 | the next and previous day undo each other |
| CivilTime.ShiftRoundTrip | src/main/java/com/ryr/ros2cal_api/roster/RosterIcsExporter.java:155 | moving an instant by an offset and back returns it |
| Usage.CallUsage.constructor | src/main/java/com/ryr/ros2cal_api/roster/CallUsage.java:4-8 | a new record has all four counts 0 and no total |
| Usage.CallUsage.EffectiveTotal | src/main/java/com/ryr/ros2cal_api/roster/CallUsage.java:50-55 | a present total is returned exactly; otherwise max(0,input)+max(0,output) modulo 2^32, equal to it when it fits, and non-negative iff it fits |
| Usage.CallUsage.SetInputTokens | src/main/java/com/ryr/ros2cal_api/roster/CallUsage.java:14-16 | sets the input count; every other field unchanged |
| Usage.CallUsage.SetOutputTokens | src/main/java/com/ryr/ros2cal_api/roster/CallUsage.java:22-24 | sets the output count; every other field unchanged |
| Usage.CallUsage.SetCachedInputTokens | src/main/java/com/ryr/ros2cal_api/roster/CallUsage.java:30-32 | sets the cached input count; other fields and the effective total unchanged |
| Usage.CallUsage.SetCachedOutputTokens | src/main/java/com/ryr/ros2cal_api/roster/CallUsage.java:38-40 | sets the cached output count; other fields and the effective total unchanged |
| Usage.CallUsage.SetTotalTokens | src/main/java/com/ryr/ros2cal_api/roster/CallUsage.java:46-48 | sets the total, which becomes the effective total; other fields unchanged |
| Usage.NewUsageTotalsZero | src/main/java/com/ryr/ros2cal_api/roster/CallUsage.java:50-55 | a fresh record's effective total is 0 |
| Usage.NegativeCountsIgnored | src/main/java/com/ryr/ros2cal_api/roster/CallUsage.java:54 | without a total, a negative input count contributes nothing |
| OpenAiClient.EnsureApiKey | src/main/java/com/ryr/ros2cal_api/roster/OpenAiRosterClient.java:163-167 | passes iff the key is non-null and not blank; otherwise 500 "OPENAI_API_KEY is not configured" |
| OpenAiClient.ApplyCacheControl | src/main/java/com/ryr/ros2cal_api/roster/OpenAiRosterClient.java:184-192 | caching on: returns "default", builder untouched; off: sets the fresh key on the builder and returns the same key |
| OpenAiClient.RequestBuilder.constructor | src/main/java/com/ryr/ros2cal_api/roster/OpenAiRosterClient.java:53-57 | the builder holds the model, prompts and image given, with no cache key |
| OpenAiClient.RequestBuilder.Build | src/main/java/com/ryr/ros2cal_api/roster/OpenAiRosterClient.java:59 | the request carries the builder's fields, temperature 0.0 and top-p 1.0 |
| OpenAiClient.MapSdkFailure | src/main/java/com/ryr/ros2cal_api/roster/OpenAiRosterClient.java:110-120 | a service error keeps its message and its status when known, else 502; any other SDK failure is 502 "OpenAI request failed" |
| OpenAiClient.Execute | src/main/java/com/ryr/ros2cal_api/roster/OpenAiRosterClient.java:107-121 | succeeds iff sending succeeds, with the same response; a failure is the mapped status |
| OpenAiClient.AppendContentsText | src/main/java/com/ryr/ros2cal_api/roster/OpenAiRosterClient.java:127-130 | one message's output-text pieces are appended to the builder in order |
| OpenAiClient.ExtractOutputText | src/main/java/com/ryr/ros2cal_api/roster/OpenAiRosterClient.java:123-135 | the in-order concatenation of every output-text piece over items, messages and parts; empty is 502 "OpenAI response missing output text" |
| OpenAiClient.OutputTextEmpty | src/main/java/com/ryr/ros2cal_api/roster/OpenAiRosterClient.java:123-135 | the concatenation is empty iff no output-text piece of any message has a character |
| OpenAiClient.ItemsTextAppend | src/main/java/com/ryr/ros2cal_api/roster/OpenAiRosterClient.java:125-130 | the text of items a+b is the text of a followed by that of b |
| OpenAiClient.ToInt | src/main/java/com/ryr/ros2cal_api/roster/OpenAiRosterClient.java:156-161 | null is 0; a number is its 32-bit truncation, itself when it fits |
| OpenAiClient.ExtractUsage | src/main/java/com/ryr/ros2cal_api/roster/OpenAiRosterClient.java:137-154 | a fresh record: all zero with no total when usage is absent; else missing counts 0, total only when present, cached input only with known details, cached output never set |
| OpenAiClient.ExtractedTotal | src/main/java/com/ryr/ros2cal_api/roster/OpenAiRosterClient.java:145-146 | a reported total that fits an int is the record's effective total |
| OpenAiClient.TruncateText | src/main/java/com/ryr/ros2cal_api/roster/OpenAiRosterClient.java:194-202 | null is ""; a text of at most 2000 UTF-16 units is unchanged; the result never exceeds 2014 UTF-16 units |
| Text.Utf16Prefix | src/main/java/com/ryr/ros2cal_api/roster/OpenAiRosterClient.java:201 | the longest prefix of the text within the unit limit: a prefix, within the limit, and one more character would exceed it |
| OpenAiClient.TruncatedText | src/main/java/com/ryr/ros2cal_api/roster/OpenAiRosterClient.java:198-201 | a text over 2000 UTF-16 units becomes its longest whole-character prefix within 2000 units (2000, or 1999 before a split surrogate pair) followed by "...(truncated)" |
| OpenAiClient.TruncateBmpText | src/main/java/com/ryr/ros2cal_api/roster/OpenAiRosterClient.java:198-201 | without supplementary characters, a text over 2000 characters becomes exactly its first 2000 followed by "...(truncated)" |
| OpenAiClient.Complete | src/main/java/com/ryr/ros2cal_api/roster/OpenAiRosterClient.java:68-73 | executes, extracts text and a fresh usage record, failing as those steps fail |
| OpenAiClient.OcrImage | src/main/java/com/ryr/ros2cal_api/roster/OpenAiRosterClient.java:35-74 | a null or blank key fails with 500 whatever the network would do; otherwise the OCR request with the policy's cache key is sent and completed |
| OpenAiClient.ParseRosterText | src/main/java/com/ryr/ros2cal_api/roster/OpenAiRosterClient.java:76-105 | the same key guard; otherwise the request carrying exactly the roster text is sent and completed |
| RosterController.IsJpeg | src/main/java/com/ryr/ros2cal_api/RosterController.java:95-100 | holds iff there are at least 3 bytes starting FF D8 FF |
| RosterController.IsPng | src/main/java/com/ryr/ros2cal_api/RosterController.java:102-112 | holds iff there are at least 8 bytes starting with the PNG signature |
| RosterController.SignaturesExclusive | src/main/java/com/ryr/ros2cal_api/RosterController.java:91-112 | fewer than 3 bytes is never accepted, and no byte string is both a JPEG and a PNG |
| RosterController.NormalizeFormat | src/main/java/com/ryr/ros2cal_api/RosterController.java:68-73 | null or blank gives "json"; anything else is trimmed and lower-cased |
| RosterController.FormatCaseInsensitive | src/main/java/com/ryr/ros2cal_api/RosterController.java:68-73 | lower-casing the format first never changes the normalised format |
| RosterController.ConvertRoster | src/main/java/com/ryr/ros2cal_api/RosterController.java:33-66 | presence, size (equal to the limit passes), format, readable bytes, signature, decodability in that order, the first failing one deciding the 400; on success keys filename, content_type, size_bytes, width, height, requested_format in order, with the normalised format |
| ConversionService.ParseRoster | src/main/java/com/ryr/ros2cal_api/roster/RosterConversionService.java:29-53 | preprocessing failure is 400 "invalid image content"; succeeds iff every stage succeeds and the parse output decodes to an object; the result holds that object and the two usages as returned |
| ConversionService.PreprocessFailureSkipsCalls | src/main/java/com/ryr/ros2cal_api/roster/RosterConversionService.java:31-36 | after a preprocessing failure neither OpenAI call nor the decoder affects the outcome |
| ConversionService.OcrFailurePropagates | src/main/java/com/ryr/ros2cal_api/roster/RosterConversionService.java:39-42 | an OCR failure is the result unchanged, and the parse call does not matter |
| ConversionService.ParseFailurePropagates | src/main/java/com/ryr/ros2cal_api/roster/RosterConversionService.java:42 | a parse failure is the result unchanged |
| ConversionService.ParseSeesOcrText | src/main/java/com/ryr/ros2cal_api/roster/RosterConversionService.java:39-42 | the parse call is consulted only on the OCR output text |
| ConversionService.NonObjectOutputIsBadGateway | src/main/java/com/ryr/ros2cal_api/roster/RosterConversionService.java:44-50 | parse output that is not a JSON object is 502 "OpenAI response was not valid JSON" |
| ImagePreprocessor.Resized | src/main/java/com/ryr/ros2cal_api/roster/RosterImagePreprocessor.java:26-37 | narrower than 1500: both sides doubled; otherwise the image itself |
| ImagePreprocessor.RgbCopy | src/main/java/com/ryr/ros2cal_api/roster/RosterImagePreprocessor.java:39-42 | the RGB copy keeps the size and has no alpha |
| ImagePreprocessor.Encoded | src/main/java/com/ryr/ros2cal_api/roster/RosterImagePreprocessor.java:25-42 | the encoded image is opaque, exactly 2w x 2h when w < 1500 and w x h otherwise |
| ImagePreprocessor.ScalingDependsOnWidthOnly | src/main/java/com/ryr/ros2cal_api/roster/RosterImagePreprocessor.java:26 | images of equal width are scaled alike, whatever their height |
| ImagePreprocessor.ScaledIffNarrow | src/main/java/com/ryr/ros2cal_api/roster/RosterImagePreprocessor.java:26-29 | the size changes iff the width is below 1500 |
| ImagePreprocessor.PreparePng | src/main/java/com/ryr/ros2cal_api/roster/RosterImagePreprocessor.java:20-49 | a read error propagates, a null image is "Unsupported image content", a declining writer is "Failed to write PNG", otherwise the PNG of the encoded image |

## Left out

- The network call, the SDK's builders beyond the fields above, and logging are not modelled:
  - `OcrImage` sends the PNG bytes themselves; the base64 data URL is not built.
  - The log lines and `logUsage` are not modelled.
- Time-zone rules are a parameter (`zones`). An unknown zone id is its `None`. The parameter answers per instant, so it could call a zone known at one instant and unknown at another; `ZoneId.of` decides validity once per zone id, and no lemma here relies on the difference.
- The wall clock is a parameter. jsonToIcs reads `OffsetDateTime.now` once per event; the model uses one `now` for all of them.
- The null branch of parseUtc is not modelled. It is unreachable, because every caller passes a non-null text.
- IcsExporter.ParseUtc: `OffsetDateTime.parse` is modelled for four-digit years only; signed and longer years are rejected.
- OpenAiClient.TruncatedText: when unit 2000 falls inside a surrogate pair, Java's `substring` keeps the lone high surrogate; the model stops one unit earlier, because a Dafny character cannot be half a pair.
- JsonValue.ToJavaString: an object whose text repeats a key prints every entry, where Java's map prints the key once with its last value.
- Fractions of a second are read and dropped; no output prints them.
- JSON numbers are integers only. Jackson's doubles, and their `toString`/`intValue`, are not modelled.
- `String.toLowerCase` is modelled for ASCII letters only (`RosterController.NormalizeFormat`); locale-specific case mapping is not modelled.
- RFC 5545 line folding is not modelled, because the exporter never folds.
- Pixel work (bicubic scaling, drawing) and ImageIO codecs are parameters or abstract.
- ImagePreprocessor.Encoded: the doubling is exact. The raster-allocation failure Java raises when a doubled size or pixel count overflows an int is not modelled.
- HttpStatus.resolve is a parameter (`knownStatus`).
- Prompt texts are opaque parameters.
- Spring configuration, security, and the other controllers are not part of this model.
- ConversionService.ParseRoster: a decoded `null` is the `NullDereference` failure (the unhandled null map on the logging line). Spring's rendering of that error is not modelled.
- The stages are abstract: each `Stages` field stands for the corresponding collaborator and is not tied to the `OcrImage`/`PreparePng` models.
- Loop bodies are split out of the exporter's methods into helper methods: `CollectSectors`, `CollectActivities`, `FillTemplate`, `SpanToIcs` and `AppendEventLines`. The appends and their order are unchanged.
- The stream pipeline of extractOutputText is two nested loops here, the inner one the helper method `AppendContentsText`. The text appended and its order are the same.
