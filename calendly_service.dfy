/** The Calendly booking client (`CalendlyService`): the JSON shapes it reads
    and writes, and the pure request-shaping steps around its three HTTP calls.
    The calls themselves are parameters: `lookup` answers the event-type lookup
    for a URL, `fetchDays` the availability query for a URL, `send` the booking
    POST for a payload. */
module Calendly {

  import opened Wrappers
  import opened Text
  import opened JsDate

  const BASE_URL := "https://calendly.com/api/booking"
  /** Days ahead of today that `getAvailableEvents` asks for. */
  const LOOKAHEAD_DAYS := 7
  const BOOKING_TIMEZONE := "Asia/Calcutta"
  const TIME_NOTATION := "12h"
  const FETCH_EVENTS_FAILED := "Failed to fetch available events from Calendly"
  const BOOK_EVENT_FAILED := "Failed to book event with Calendly"

  // ---------------------------------------------------------------------------
  // JSON shapes
  // ---------------------------------------------------------------------------

  datatype Spot = Spot(status: string, startTime: string, inviteesRemaining: int)

  /** One day of the availability answer; `spots` may be absent. */
  datatype CalendlyEvent = CalendlyEvent(date: string, status: string, spots: Option<seq<Spot>>)

  datatype LocationConfiguration = LocationConfiguration(
    id: int, kind: string, position: int, location: Option<string>,
    conferencingConfigured: bool, data: string)

  datatype SchedulingLink = SchedulingLink(uid: string)

  /** The event-type lookup answer; `locationConfigurations` may be absent. */
  datatype CalendlyEventType = CalendlyEventType(
    uuid: string, schedulingLink: SchedulingLink,
    locationConfigurations: Option<seq<LocationConfiguration>>)

  /** The three location fields the booking payload carries. */
  datatype LocationSettings = LocationSettings(kind: string, location: Option<string>, data: string)

  const DEFAULT_LOCATION := LocationSettings("google_conference", None, "")

  /** The argument of `bookEvent`. */
  datatype EventData = EventData(startTime: string, fullName: string, email: string)

  datatype BookedEvent = BookedEvent(startTime: string, locationConfiguration: LocationSettings, guests: seq<string>)

  datatype Invitee = Invitee(timezone: string, timeNotation: string, fullName: string, email: string)

  datatype BookEventRequest = BookEventRequest(
    event: BookedEvent, invitee: Invitee, schedulingLinkUuid: string, eventTypeUuid: string)

  datatype EventSummary = EventSummary(uuid: string, name: string, startTime: string, endTime: string, locationType: string)

  datatype InviteeSummary = InviteeSummary(email: string, fullName: string, timezone: string)

  datatype BookEventResponse = BookEventResponse(uri: string, uuid: string, event: EventSummary, invitee: InviteeSummary)

  datatype DateRange = DateRange(startDate: string, endDate: string)

  // ---------------------------------------------------------------------------
  // dates
  // ---------------------------------------------------------------------------

  /** `formatDate`: the year as `String` prints it, then the 1-based month and
      the day of the month, each zero-padded to two places, joined by '-'. */
  function FormatDate(d: CalendarDate): (s: string)
  {
    IntToString(d.fullYear) + "-" + PadStart(IntToString(d.month + 1), 2, '0') + "-" + PadStart(IntToString(d.date), 2, '0')
  }

  /** The `full-date` production of section 5.6 of RFC 3339
      (`date-fullyear "-" date-month "-" date-mday`), read back into a date. */
  function ParseFullDate(s: string): (r: Option<CalendarDate>)
    ensures r.Some? ==> ValidDate(r.value) && 0 <= r.value.fullYear <= 9999
  {
    if |s| == 10 && s[4] == '-' && s[7] == '-' && AllDigits(s[..4]) && AllDigits(s[5..7]) && AllDigits(s[8..]) then
      DigitsValueBounds(s[..4]);
      var year := DigitsValue(s[..4]);
      var month := DigitsValue(s[5..7]) - 1;
      var day := DigitsValue(s[8..]);
      if 0 <= month < 12 && 1 <= day <= DaysInMonth(year, month) then Some(CalendarDate(year, month, day)) else None
    else None
  }

  /** Where the pieces of `year-month-day` sit when they are 4, 2 and 2 long. */
  lemma DashedLayout(year: string, month: string, day: string)
    requires |year| == 4 && |month| == 2 && |day| == 2
    ensures var s := year + "-" + month + "-" + day;
      |s| == 10 && s[4] == '-' && s[7] == '-' && s[..4] == year && s[5..7] == month && s[8..] == day
  {
  }

  /** The year of a four-digit-year date prints as four digits, the month
      and day as two each. */
  lemma FieldWidths(d: CalendarDate)
    requires ValidDate(d) && 1000 <= d.fullYear <= 9999
    ensures |NatToString(d.fullYear)| == 4
    ensures |PadStart(NatToString(d.month + 1), 2, '0')| == 2 && |PadStart(NatToString(d.date), 2, '0')| == 2
  {
    NatToStringLength(d.fullYear, 4);
    TwoDigitWidth(d.month + 1);
    TwoDigitWidth(d.date);
  }

  /** A four-digit-year date is formatted as four year digits, '-', two month
      digits, '-', two day digits. */
  lemma FourDigitYearLayout(d: CalendarDate)
    requires ValidDate(d) && 1000 <= d.fullYear <= 9999
    ensures var s := FormatDate(d);
      |s| == 10 && s[4] == '-' && s[7] == '-' &&
      s[..4] == NatToString(d.fullYear) &&
      s[5..7] == PadStart(NatToString(d.month + 1), 2, '0') &&
      s[8..] == PadStart(NatToString(d.date), 2, '0')
  {
    var year := NatToString(d.fullYear);
    var month := PadStart(NatToString(d.month + 1), 2, '0');
    var day := PadStart(NatToString(d.date), 2, '0');
    FieldWidths(d);
    FormatDateFields(d);
    DashedLayout(year, month, day);
  }

  /** For a date in a non-negative year every field prints without a sign. */
  lemma FormatDateFields(d: CalendarDate)
    requires ValidDate(d) && 0 <= d.fullYear
    ensures FormatDate(d) == NatToString(d.fullYear) + "-" + PadStart(NatToString(d.month + 1), 2, '0') + "-" +
                             PadStart(NatToString(d.date), 2, '0')
  {
    assert IntToString(d.fullYear) == NatToString(d.fullYear);
    assert IntToString(d.month + 1) == NatToString(d.month + 1);
    assert IntToString(d.date) == NatToString(d.date);
  }

  /** The three zero-padded fields of a four-digit-year date read back from
      their positions in the formatted string. */
  lemma FourDigitYearRoundTrip(d: CalendarDate)
    requires ValidDate(d) && 1000 <= d.fullYear <= 9999
    ensures ParseFullDate(FormatDate(d)) == Some(d)
  {
    var s := FormatDate(d);
    FourDigitYearLayout(d);
    TwoDigits(d.month + 1);
    TwoDigits(d.date);
    assert AllDigits(s[..4]) && DigitsValue(s[..4]) == d.fullYear;
    assert AllDigits(s[5..7]) && DigitsValue(s[5..7]) == d.month + 1;
    assert AllDigits(s[8..]) && DigitsValue(s[8..]) == d.date;
  }

  /** The formatted date is six characters longer than the printed year. */
  lemma FormattedLength(d: CalendarDate)
    requires ValidDate(d)
    ensures |FormatDate(d)| == |IntToString(d.fullYear)| + 6
  {
    TwoDigitWidth(d.month + 1);
    TwoDigitWidth(d.date);
  }

  /** Outside the years 1000 to 9999 the year is not four digits long, so the
      formatted date is not an RFC 3339 full-date. */
  lemma OtherYearNotFullDate(d: CalendarDate)
    requires ValidDate(d) && !(1000 <= d.fullYear <= 9999)
    ensures ParseFullDate(FormatDate(d)) == None
  {
    var s := FormatDate(d);
    FormattedLength(d);
    if d.fullYear < 0 {
      assert s[0] == IntToString(d.fullYear)[0] == '-';
      assert |s| >= 4 ==> !IsDigit(s[..4][0]);
    } else if d.fullYear < 1000 {
      NatToStringWidth(d.fullYear, 3);
    } else {
      NatToStringWidth(d.fullYear, 4);
    }
  }

  /** `formatDate` writes an RFC 3339 full-date that reads back as the same
      date exactly when the year has four digits. */
  lemma FormatDateIsFullDate(d: CalendarDate)
    requires ValidDate(d)
    ensures ParseFullDate(FormatDate(d)) == Some(d) <==> 1000 <= d.fullYear <= 9999
  {
    if 1000 <= d.fullYear <= 9999 {
      FourDigitYearRoundTrip(d);
    } else {
      OtherYearNotFullDate(d);
    }
  }

  /** `calculateDateRange(daysAhead)`: today, and a second Date that starts as
      today and is moved in place with `setDate(getDate() + daysAhead)`. */
  method CalculateDateRange(today: CalendarDate, daysAhead: int) returns (range: DateRange)
    requires ValidDate(today)
    ensures range.startDate == FormatDate(today)
    ensures range.endDate == FormatDate(AddDays(today, daysAhead))
  {
    var endDate := new LocalDate(today);
    endDate.SetDate(today.date + daysAhead);
    DayNumberInjective(endDate.Value(), AddDays(today, daysAhead));
    range := DateRange(FormatDate(today), FormatDate(endDate.Value()));
  }

  /** The end of the range is written exactly as the one valid date `n` days
      after today: for four-digit years, another date is written the same
      way if and only if it is that date. */
  lemma DateRangeEnd(today: CalendarDate, n: int, end: CalendarDate)
    requires ValidDate(today) && ValidDate(end) && 1000 <= end.fullYear <= 9999
    ensures FormatDate(end) == FormatDate(AddDays(today, n)) <==> DayNumber(end) == DayNumber(today) + n
  {
    var e := AddDays(today, n);
    if DayNumber(end) == DayNumber(today) + n {
      DayNumberInjective(end, e);
    }
    if FormatDate(end) == FormatDate(e) {
      FourDigitYearRoundTrip(end);
      if !(1000 <= e.fullYear <= 9999) {
        OtherYearNotFullDate(e);
        assert false;
      }
      FourDigitYearRoundTrip(e);
    }
  }

  // ---------------------------------------------------------------------------
  // request shaping
  // ---------------------------------------------------------------------------

  /** `getLocationConfiguration`: the first configured location, or the video
      conference default when the list is absent or empty. */
  function GetLocationConfiguration(eventType: CalendlyEventType): (r: LocationSettings)
    ensures match eventType.locationConfigurations
      case Some(configs) =>
        if |configs| > 0 then
          r.kind == configs[0].kind && r.location == configs[0].location && r.data == configs[0].data
        else r == DEFAULT_LOCATION
      case None => r == DEFAULT_LOCATION
  {
    match eventType.locationConfigurations
    case Some(configs) =>
      if |configs| > 0 then LocationSettings(configs[0].kind, configs[0].location, configs[0].data)
      else DEFAULT_LOCATION
    case None => DEFAULT_LOCATION
  }

  /** `createBookingPayload`: the invitee's choices and the location are copied
      unchanged, the two identifiers come from the event type, and the
      timezone, time notation and (empty) guest list are fixed. */
  function CreateBookingPayload(eventData: EventData, eventType: CalendlyEventType, location: LocationSettings): (p: BookEventRequest)
    ensures p.event.startTime == eventData.startTime
    ensures p.event.locationConfiguration == location
    ensures p.event.guests == []
    ensures p.invitee.timezone == BOOKING_TIMEZONE && p.invitee.timeNotation == TIME_NOTATION
    ensures p.invitee.fullName == eventData.fullName && p.invitee.email == eventData.email
    ensures p.schedulingLinkUuid == eventType.schedulingLink.uid && p.eventTypeUuid == eventType.uuid
  {
    BookEventRequest(
      BookedEvent(eventData.startTime, LocationSettings(location.kind, location.location, location.data), []),
      Invitee(BOOKING_TIMEZONE, TIME_NOTATION, eventData.fullName, eventData.email),
      eventType.schedulingLink.uid,
      eventType.uuid)
  }

  /** Two payloads are equal exactly when they were built from the same
      invitee data, location and identifiers: nothing else feeds into them. */
  lemma PayloadDeterminedByInputs(d1: EventData, t1: CalendlyEventType, l1: LocationSettings,
                                  d2: EventData, t2: CalendlyEventType, l2: LocationSettings)
    ensures CreateBookingPayload(d1, t1, l1) == CreateBookingPayload(d2, t2, l2)
        <==> d1 == d2 && l1 == l2 && t1.uuid == t2.uuid && t1.schedulingLink == t2.schedulingLink
  {
  }

  /** `buildAvailabilityUrl`; `AvailabilityUrlParameters` states what it encodes. */
  function BuildAvailabilityUrl(eventType: CalendlyEventType, range: DateRange): string
  {
    BASE_URL + "/event_types/" + eventType.uuid + "/calendar/range?" +
    "timezone=Asia%2FCalcutta&" +
    "diagnostics=false&" +
    "range_start=" + range.startDate + "&" +
    "range_end=" + range.endDate + "&" +
    "scheduling_link_uuid=" + eventType.schedulingLink.uid
  }

  /** A value that can sit in a URL path or query without being mistaken for
      a delimiter. */
  predicate QuerySafe(v: string)
  {
    '?' !in v && '&' !in v && '=' !in v
  }

  /** Reads a URL the way the server does: the path before the single '?',
      then the '&'-separated `key=value` parameters in order. */
  function ParseRequestUrl(url: string): Option<(string, seq<(string, string)>)>
  {
    var parts := Split(url, '?');
    if |parts| != 2 then None
    else
      match ParseQueryPairs(Split(parts[1], '&'))
      case None => None
      case Some(pairs) => Some((parts[0], pairs))
  }

  function ParseQueryPairs(pieces: seq<string>): Option<seq<(string, string)>>
  {
    if pieces == [] then Some([])
    else
      var kv := Split(pieces[0], '=');
      if |kv| != 2 then None
      else
        match ParseQueryPairs(pieces[1..])
        case None => None
        case Some(rest) => Some([(kv[0], kv[1])] + rest)
  }

  lemma {:induction false} KeyValue(k: string, v: string)
    requires '=' !in k && '=' !in v
    ensures Split(k + "=" + v, '=') == [k, v]
  {
    assert Join([k, v], '=') == k + "=" + v;
    SplitJoin([k, v], '=');
  }

  lemma {:induction false} JoinFive(a: string, b: string, c: string, d: string, e: string, sep: char)
    ensures Join([a, b, c, d, e], sep) == a + [sep] + b + [sep] + c + [sep] + d + [sep] + e
  {
    assert [d, e][1..] == [e];
    assert Join([d, e], sep) == d + [sep] + e;
    assert [c, d, e][1..] == [d, e];
    assert Join([c, d, e], sep) == c + [sep] + (d + [sep] + e);
    assert [b, c, d, e][1..] == [c, d, e];
    assert Join([b, c, d, e], sep) == b + [sep] + (c + [sep] + (d + [sep] + e));
    assert [a, b, c, d, e][1..] == [b, c, d, e];
    assert Join([a, b, c, d, e], sep) == a + [sep] + (b + [sep] + (c + [sep] + (d + [sep] + e)));
  }

  /** The path of the availability URL. */
  function AvailabilityPath(eventType: CalendlyEventType): string
  {
    BASE_URL + "/event_types/" + eventType.uuid + "/calendar/range"
  }

  /** One `key=value` query parameter. */
  function Param(key: string, value: string): string
  {
    key + "=" + value
  }

  /** The five `key=value` pieces of the availability query, in order. */
  function AvailabilityQueryPieces(eventType: CalendlyEventType, range: DateRange): seq<string>
  {
    [Param("timezone", "Asia%2FCalcutta"), Param("diagnostics", "false"),
     Param("range_start", range.startDate), Param("range_end", range.endDate),
     Param("scheduling_link_uuid", eventType.schedulingLink.uid)]
  }

  /** Reassociates the availability URL as written, a left-nested chain of
      literals and values, into path + "?" + the five `key=value` pieces joined
      by '&'. The literal arguments are the source's string fragments
      (`"/calendar/range?"`, `"timezone=Asia%2FCalcutta&"`, `"range_start="` ...),
      each tied by a requires to the key or value it holds. */
  lemma {:induction false} Regroup(base: string, types: string, uuid: string, range: string, rangeQ: string,
                                   k1: string, v1: string, p1Amp: string, k2: string, v2: string, p2Amp: string,
                                   k3: string, k3Eq: string, v3: string, k4: string, k4Eq: string, v4: string,
                                   k5: string, k5Eq: string, v5: string)
    requires rangeQ == range + "?" && p1Amp == Param(k1, v1) + "&" && p2Amp == Param(k2, v2) + "&"
    requires k3Eq == k3 + "=" && k4Eq == k4 + "=" && k5Eq == k5 + "="
    ensures base + types + uuid + rangeQ + p1Amp + p2Amp + k3Eq + v3 + "&" + k4Eq + v4 + "&" + k5Eq + v5
         == (base + types + uuid + range) + "?" +
            (Param(k1, v1) + "&" + Param(k2, v2) + "&" + Param(k3, v3) + "&" + Param(k4, v4) + "&" + Param(k5, v5))
  {
  }

  lemma AvailabilityUrlShape(eventType: CalendlyEventType, range: DateRange)
    ensures BuildAvailabilityUrl(eventType, range)
         == AvailabilityPath(eventType) + "?" + Join(AvailabilityQueryPieces(eventType, range), '&')
  {
    var ps := AvailabilityQueryPieces(eventType, range);
    JoinFive(ps[0], ps[1], ps[2], ps[3], ps[4], '&');
    Regroup(BASE_URL, "/event_types/", eventType.uuid, "/calendar/range", "/calendar/range?",
            "timezone", "Asia%2FCalcutta", "timezone=Asia%2FCalcutta&",
            "diagnostics", "false", "diagnostics=false&",
            "range_start", "range_start=", range.startDate, "range_end", "range_end=", range.endDate,
            "scheduling_link_uuid", "scheduling_link_uuid=", eventType.schedulingLink.uid);
  }

  lemma AvailabilityPathSafe(eventType: CalendlyEventType)
    requires '?' !in eventType.uuid
    ensures '?' !in AvailabilityPath(eventType)
  {
    assert '?' !in BASE_URL;
    assert '?' !in "/event_types/" && '?' !in "/calendar/range";
  }

  /** No piece of the availability query holds a '?' or an '&'. */
  lemma AvailabilityPiecesSafe(eventType: CalendlyEventType, range: DateRange)
    requires QuerySafe(range.startDate) && QuerySafe(range.endDate) && QuerySafe(eventType.schedulingLink.uid)
    ensures var ps := AvailabilityQueryPieces(eventType, range);
      forall k :: 0 <= k < |ps| ==> '&' !in ps[k] && '?' !in ps[k]
  {
    QueryKeysSafe();
    QueryValuesSafe();
    ParamSafe("timezone", "Asia%2FCalcutta");
    ParamSafe("diagnostics", "false");
    ParamSafe("range_start", range.startDate);
    ParamSafe("range_end", range.endDate);
    ParamSafe("scheduling_link_uuid", eventType.schedulingLink.uid);
  }

  /** The query's keys and fixed values are free of the query's delimiters. */
  lemma QueryKeysSafe()
    ensures QuerySafe("timezone") && QuerySafe("diagnostics") && QuerySafe("range_start")
    ensures QuerySafe("range_end") && QuerySafe("scheduling_link_uuid")
  {
    RangeKeysSafe();
    LinkKeySafe();
  }

  // The lemmas below each state one fact about string literals; they are kept
  // apart so that every proof that uses them works on a small goal.

  lemma RangeKeysSafe()
    ensures QuerySafe("range_start") && QuerySafe("range_end")
  {
  }

  lemma LinkKeySafe()
    ensures QuerySafe("scheduling_link_uuid")
  {
  }

  lemma QueryValuesSafe()
    ensures QuerySafe("Asia%2FCalcutta") && QuerySafe("false")
  {
  }

  lemma ParamSafe(key: string, value: string)
    requires '&' !in key && '?' !in key && '&' !in value && '?' !in value
    ensures '&' !in Param(key, value) && '?' !in Param(key, value)
  {
  }

  /** A character that is in no piece and is not the separator is not in the join. */
  lemma {:induction false} JoinAvoids(parts: seq<string>, sep: char, c: char)
    requires |parts| >= 1 && c != sep
    requires forall k :: 0 <= k < |parts| ==> c !in parts[k]
    ensures c !in Join(parts, sep)
    decreases |parts|
  {
    if |parts| > 1 {
      JoinAvoids(parts[1..], sep, c);
    }
  }

  lemma AvailabilityQuerySplits(eventType: CalendlyEventType, range: DateRange)
    requires QuerySafe(range.startDate) && QuerySafe(range.endDate) && QuerySafe(eventType.schedulingLink.uid)
    ensures var ps := AvailabilityQueryPieces(eventType, range);
      '?' !in Join(ps, '&') && Split(Join(ps, '&'), '&') == ps
  {
    var ps := AvailabilityQueryPieces(eventType, range);
    AvailabilityPiecesSafe(eventType, range);
    SplitJoin(ps, '&');
    JoinAvoids(ps, '&', '?');
  }

  lemma {:induction false} ParsePairsCons(k: string, v: string, rest: seq<string>, pairs: seq<(string, string)>)
    requires '=' !in k && '=' !in v
    requires ParseQueryPairs(rest) == Some(pairs)
    ensures ParseQueryPairs([Param(k, v)] + rest) == Some([(k, v)] + pairs)
  {
    KeyValue(k, v);
    assert ([Param(k, v)] + rest)[1..] == rest;
  }

  /** Five `key=value` pieces whose keys and values hold no '=' parse back
      into those five pairs, in order. */
  lemma {:induction false} ParseFiveParams(k1: string, v1: string, k2: string, v2: string, k3: string, v3: string,
                                           k4: string, v4: string, k5: string, v5: string)
    requires '=' !in k1 && '=' !in v1 && '=' !in k2 && '=' !in v2 && '=' !in k3 && '=' !in v3
    requires '=' !in k4 && '=' !in v4 && '=' !in k5 && '=' !in v5
    ensures ParseQueryPairs([Param(k1, v1), Param(k2, v2), Param(k3, v3), Param(k4, v4), Param(k5, v5)])
         == Some([(k1, v1), (k2, v2), (k3, v3), (k4, v4), (k5, v5)])
  {
    var l5, q5 := [Param(k5, v5)], [(k5, v5)];
    ParsePairsCons(k5, v5, [], []);
    assert [Param(k5, v5)] + [] == l5 && [(k5, v5)] + [] == q5;
    var l4, q4 := [Param(k4, v4)] + l5, [(k4, v4)] + q5;
    ParsePairsCons(k4, v4, l5, q5);
    var l3, q3 := [Param(k3, v3)] + l4, [(k3, v3)] + q4;
    ParsePairsCons(k3, v3, l4, q4);
    var l2, q2 := [Param(k2, v2)] + l3, [(k2, v2)] + q3;
    ParsePairsCons(k2, v2, l3, q3);
    ParsePairsCons(k1, v1, l2, q2);
    assert [Param(k1, v1)] + l2 == [Param(k1, v1), Param(k2, v2), Param(k3, v3), Param(k4, v4), Param(k5, v5)];
    assert [(k1, v1)] + q2 == [(k1, v1), (k2, v2), (k3, v3), (k4, v4), (k5, v5)];
  }

  lemma AvailabilityQueryPairs(eventType: CalendlyEventType, range: DateRange)
    requires QuerySafe(range.startDate) && QuerySafe(range.endDate) && QuerySafe(eventType.schedulingLink.uid)
    ensures ParseQueryPairs(AvailabilityQueryPieces(eventType, range)) == Some(
      [("timezone", "Asia%2FCalcutta"), ("diagnostics", "false"),
       ("range_start", range.startDate), ("range_end", range.endDate),
       ("scheduling_link_uuid", eventType.schedulingLink.uid)])
  {
    QueryKeysSafe();
    QueryValuesSafe();
    ParseFiveParams("timezone", "Asia%2FCalcutta", "diagnostics", "false",
                    "range_start", range.startDate, "range_end", range.endDate,
                    "scheduling_link_uuid", eventType.schedulingLink.uid);
  }

  /** A path free of '?' followed by '?' and a query of '&'-joined pieces
      parses back into that path and the pieces' pairs. */
  lemma ParseRequestUrlOf(path: string, pieces: seq<string>, pairs: seq<(string, string)>)
    requires |pieces| >= 1 && '?' !in path && '?' !in Join(pieces, '&')
    requires Split(Join(pieces, '&'), '&') == pieces
    requires ParseQueryPairs(pieces) == Some(pairs)
    ensures ParseRequestUrl(path + "?" + Join(pieces, '&')) == Some((path, pairs))
  {
    var query := Join(pieces, '&');
    JoinTwo(path, query, '?');
    SplitJoin([path, query], '?');
  }

  lemma JoinTwo(a: string, b: string, sep: char)
    ensures Join([a, b], sep) == a + [sep] + b
  {
    assert [a, b][1..] == [b];
  }

  /** The availability URL names the event type's calendar range and carries
      exactly these query parameters, in this order: the fixed timezone and
      diagnostics flag, the two range dates and the scheduling link. */
  lemma AvailabilityUrlParameters(eventType: CalendlyEventType, range: DateRange)
    requires '?' !in eventType.uuid
    requires QuerySafe(range.startDate) && QuerySafe(range.endDate) && QuerySafe(eventType.schedulingLink.uid)
    ensures ParseRequestUrl(BuildAvailabilityUrl(eventType, range)) == Some((
      BASE_URL + "/event_types/" + eventType.uuid + "/calendar/range",
      [("timezone", "Asia%2FCalcutta"), ("diagnostics", "false"),
       ("range_start", range.startDate), ("range_end", range.endDate),
       ("scheduling_link_uuid", eventType.schedulingLink.uid)]))
  {
    var ps := AvailabilityQueryPieces(eventType, range);
    AvailabilityUrlShape(eventType, range);
    AvailabilityPathSafe(eventType);
    AvailabilityQuerySplits(eventType, range);
    AvailabilityQueryPairs(eventType, range);
    ParseRequestUrlOf(AvailabilityPath(eventType), ps, ParseQueryPairs(ps).value);
  }

  /** Every character `formatDate` writes is a digit or '-', so the range
      dates never disturb the query. */
  lemma FormatDateQuerySafe(d: CalendarDate)
    ensures DigitsOrDashes(FormatDate(d))
    ensures QuerySafe(FormatDate(d))
  {
    var year := IntToString(d.fullYear);
    var month := PadStart(IntToString(d.month + 1), 2, '0');
    var day := PadStart(IntToString(d.date), 2, '0');
    IntToStringChars(d.fullYear);
    IntToStringChars(d.month + 1);
    IntToStringChars(d.date);
    PaddedChars(IntToString(d.month + 1));
    PaddedChars(IntToString(d.date));
    DashedDigits(year, month, day);
    DigitsOrDashesQuerySafe(FormatDate(d));
  }

  lemma DashedDigits(year: string, month: string, day: string)
    requires DigitsOrDashes(year) && DigitsOrDashes(month) && DigitsOrDashes(day)
    ensures DigitsOrDashes(year + "-" + month + "-" + day)
  {
  }

  /** The value a JavaScript template literal prints for a possibly undefined string. */
  function TemplateText(v: Option<string>): string
  {
    match v
    case Some(s) => s
    case None => "undefined"
  }

  /** The event-type lookup URL for the two slugs, each printed as a
      template literal prints it. */
  function LookupUrl(eventTypeSlug: Option<string>, profileSlug: Option<string>): string
  {
    BASE_URL + "/event_types/lookup?event_type_slug=" + TemplateText(eventTypeSlug) +
    "&profile_slug=" + TemplateText(profileSlug)
  }

  /** Reassociates the lookup URL as written, base + head + slug + "&key=" +
      slug, into path + "?" + the two `key=value` pieces joined by '&'. */
  lemma {:induction false} LookupRegroup(base: string, head: string, lookup: string,
                                         k1: string, v1: string, ampK2Eq: string, k2: string, v2: string)
    requires head == lookup + "?" + k1 + "=" && ampK2Eq == "&" + k2 + "="
    ensures base + head + v1 + ampK2Eq + v2 == (base + lookup) + "?" + (Param(k1, v1) + "&" + Param(k2, v2))
  {
  }

  /** The lookup URL is its path, '?', and the two parameters joined by '&'. */
  lemma LookupUrlShape(eventTypeSlug: Option<string>, profileSlug: Option<string>)
    ensures var ps := [Param("event_type_slug", TemplateText(eventTypeSlug)), Param("profile_slug", TemplateText(profileSlug))];
      LookupUrl(eventTypeSlug, profileSlug) == BASE_URL + "/event_types/lookup" + "?" + Join(ps, '&')
  {
    var e, p := TemplateText(eventTypeSlug), TemplateText(profileSlug);
    var ps := [Param("event_type_slug", e), Param("profile_slug", p)];
    LookupHead();
    LookupRegroup(BASE_URL, "/event_types/lookup?event_type_slug=", "/event_types/lookup",
                  "event_type_slug", e, "&profile_slug=", "profile_slug", p);
    JoinTwo(ps[0], ps[1], '&');
  }

  lemma LookupHead()
    ensures "/event_types/lookup?event_type_slug=" == "/event_types/lookup" + "?" + "event_type_slug" + "="
    ensures "&profile_slug=" == "&" + "profile_slug" + "="
  {
  }

  lemma {:induction false} ParseTwoParams(k1: string, v1: string, k2: string, v2: string)
    requires '=' !in k1 && '=' !in v1 && '=' !in k2 && '=' !in v2
    ensures ParseQueryPairs([Param(k1, v1), Param(k2, v2)]) == Some([(k1, v1), (k2, v2)])
  {
    var l2, q2 := [Param(k2, v2)], [(k2, v2)];
    ParsePairsCons(k2, v2, [], []);
    assert [Param(k2, v2)] + [] == l2 && [(k2, v2)] + [] == q2;
    ParsePairsCons(k1, v1, l2, q2);
    assert [Param(k1, v1)] + l2 == [Param(k1, v1), Param(k2, v2)];
    assert [(k1, v1)] + q2 == [(k1, v1), (k2, v2)];
  }

  lemma LookupKeysSafe()
    ensures QuerySafe("event_type_slug") && QuerySafe("profile_slug")
  {
  }

  /** The lookup URL names the lookup path and carries exactly the event
      type slug and the profile slug, in that order, when neither slug holds
      a query delimiter; an undefined slug travels as the text "undefined". */
  lemma LookupUrlParameters(eventTypeSlug: Option<string>, profileSlug: Option<string>)
    requires QuerySafe(TemplateText(eventTypeSlug)) && QuerySafe(TemplateText(profileSlug))
    ensures ParseRequestUrl(LookupUrl(eventTypeSlug, profileSlug)) == Some((
      BASE_URL + "/event_types/lookup",
      [("event_type_slug", TemplateText(eventTypeSlug)), ("profile_slug", TemplateText(profileSlug))]))
  {
    var e, p := TemplateText(eventTypeSlug), TemplateText(profileSlug);
    var ps := [Param("event_type_slug", e), Param("profile_slug", p)];
    LookupUrlShape(eventTypeSlug, profileSlug);
    LookupQuerySplits(e, p);
    LookupPathSafe();
    ParseTwoParams("event_type_slug", e, "profile_slug", p);
    ParseRequestUrlOf(BASE_URL + "/event_types/lookup", ps, [("event_type_slug", e), ("profile_slug", p)]);
  }

  lemma LookupPathSafe()
    ensures '?' !in BASE_URL + "/event_types/lookup"
  {
  }

  lemma LookupQuerySplits(e: string, p: string)
    requires QuerySafe(e) && QuerySafe(p)
    ensures var ps := [Param("event_type_slug", e), Param("profile_slug", p)];
      '?' !in Join(ps, '&') && Split(Join(ps, '&'), '&') == ps
  {
    var ps := [Param("event_type_slug", e), Param("profile_slug", p)];
    LookupKeysSafe();
    ParamSafe("event_type_slug", e);
    ParamSafe("profile_slug", p);
    SplitJoin(ps, '&');
    JoinAvoids(ps, '&', '?');
  }

  // ---------------------------------------------------------------------------
  // the service object
  // ---------------------------------------------------------------------------

  class CalendlyService {
    var profileSlug: Option<string>
    var eventTypeSlug: Option<string>

    /** The slugs are the path pieces at positions 3 and 4 of the booking
        page URL split on '/'; shorter URLs leave them undefined. */
    constructor (url: string)
      ensures profileSlug == PieceAt(Split(url, '/'), 3)
      ensures eventTypeSlug == PieceAt(Split(url, '/'), 4)
    {
      profileSlug := PieceAt(Split(url, '/'), 3);
      eventTypeSlug := PieceAt(Split(url, '/'), 4);
    }

    /** The URL `fetchEventTypeDetails` asks for. */
    function EventTypeLookupUrl(): string
      reads this
    {
      LookupUrl(eventTypeSlug, profileSlug)
    }

    /** `getAvailableEvents`: look up the event type, query its calendar for
        today and the next seven days, and hand back the days; any failure
        becomes the one fixed error message. */
    method GetAvailableEvents(today: CalendarDate,
                              lookup: string -> Result<CalendlyEventType, string>,
                              fetchDays: string -> Result<seq<CalendlyEvent>, string>)
      returns (r: Result<seq<CalendlyEvent>, string>)
      requires ValidDate(today)
      ensures r.Failure? ==> r.error == FETCH_EVENTS_FAILED
      ensures lookup(EventTypeLookupUrl()).Failure? ==> r.Failure?
      ensures lookup(EventTypeLookupUrl()).Success? ==>
        var range := DateRange(FormatDate(today), FormatDate(AddDays(today, LOOKAHEAD_DAYS)));
        var reply := fetchDays(BuildAvailabilityUrl(lookup(EventTypeLookupUrl()).value, range));
        (r.Success? <==> reply.Success?) && (r.Success? ==> r.value == reply.value)
    {
      var eventType := lookup(EventTypeLookupUrl());
      if eventType.Failure? {
        return Failure(FETCH_EVENTS_FAILED);
      }
      var range := CalculateDateRange(today, LOOKAHEAD_DAYS);
      var reply := FetchAvailability(eventType.value, range, fetchDays);
      if reply.Failure? {
        return Failure(FETCH_EVENTS_FAILED);
      }
      r := Success(reply.value);
    }

    /** `fetchAvailability`: ask for the days of the range at the availability URL. */
    method FetchAvailability(eventType: CalendlyEventType, range: DateRange,
                             fetchDays: string -> Result<seq<CalendlyEvent>, string>)
      returns (reply: Result<seq<CalendlyEvent>, string>)
      ensures reply == fetchDays(BuildAvailabilityUrl(eventType, range))
    {
      reply := fetchDays(BuildAvailabilityUrl(eventType, range));
    }

    /** `bookEvent`: look up the event type afresh, resolve its location,
        build the payload and send it; any failure becomes the one fixed
        error message. */
    method BookEvent(eventData: EventData,
                     lookup: string -> Result<CalendlyEventType, string>,
                     send: BookEventRequest -> Result<Option<BookEventResponse>, string>)
      returns (r: Result<Option<BookEventResponse>, string>)
      ensures r.Failure? ==> r.error == BOOK_EVENT_FAILED
      ensures lookup(EventTypeLookupUrl()).Failure? ==> r.Failure?
      ensures lookup(EventTypeLookupUrl()).Success? ==>
        var eventType := lookup(EventTypeLookupUrl()).value;
        var reply := send(CreateBookingPayload(eventData, eventType, GetLocationConfiguration(eventType)));
        (r.Success? <==> reply.Success?) && (r.Success? ==> r.value == reply.value)
    {
      var eventType := lookup(EventTypeLookupUrl());
      if eventType.Failure? {
        return Failure(BOOK_EVENT_FAILED);
      }
      var location := GetLocationConfiguration(eventType.value);
      var payload := CreateBookingPayload(eventData, eventType.value, location);
      var reply := send(payload);
      if reply.Failure? {
        return Failure(BOOK_EVENT_FAILED);
      }
      r := Success(reply.value);
    }
  }

  // ---------------------------------------------------------------------------
  // the booking page URL
  // ---------------------------------------------------------------------------

  /** For a booking page `scheme//host/profile/eventType[/...]` whose pieces
      hold no '/', the profile and event type slugs are exactly those pieces. */
  lemma {:induction false} BookingPageSlugs(scheme: string, host: string, profile: string, eventType: string, tail: seq<string>)
    requires '/' !in scheme && '/' !in host && '/' !in profile && '/' !in eventType
    requires forall k :: 0 <= k < |tail| ==> '/' !in tail[k]
    ensures var parts := Split(Join([scheme, "", host, profile, eventType] + tail, '/'), '/');
            PieceAt(parts, 3) == Some(profile) && PieceAt(parts, 4) == Some(eventType)
  {
    var pieces := [scheme, "", host, profile, eventType] + tail;
    assert pieces[3] == profile && pieces[4] == eventType;
    SplitJoin(pieces, '/');
  }

  /** The booking page the program is run with. */
  const BOOKING_PAGE_URL := "https://calendly.com/codingtalks123/30min"

  lemma BookingPageUrlPieces()
    ensures BOOKING_PAGE_URL == Join(["https:", "", "calendly.com", "codingtalks123", "30min"], '/')
  {
    JoinFive("https:", "", "calendly.com", "codingtalks123", "30min", '/');
    BookingPageUrlHalves();
    BookingPageUrlHead();
    BookingPageUrlTail();
  }

  lemma BookingPageUrlHalves()
    ensures BOOKING_PAGE_URL == "https://calendly.com" + "/codingtalks123/30min"
  {
  }

  lemma BookingPageUrlHead()
    ensures "https://calendly.com" == "https:" + "/" + "" + "/" + "calendly.com"
  {
  }

  lemma BookingPageUrlTail()
    ensures "/codingtalks123/30min" == "/" + "codingtalks123" + "/" + "30min"
  {
  }

  /** The program's booking page yields the profile slug "codingtalks123"
      and the event type slug "30min". */
  lemma BookingPageUrlSlugs()
    ensures PieceAt(Split(BOOKING_PAGE_URL, '/'), 3) == Some("codingtalks123")
    ensures PieceAt(Split(BOOKING_PAGE_URL, '/'), 4) == Some("30min")
  {
    BookingPageUrlPieces();
    assert '/' !in "https:" && '/' !in "calendly.com" && '/' !in "codingtalks123" && '/' !in "30min";
    assert ["https:", "", "calendly.com", "codingtalks123", "30min"] + [] == ["https:", "", "calendly.com", "codingtalks123", "30min"];
    BookingPageSlugs("https:", "calendly.com", "codingtalks123", "30min", []);
  }

  /** The service built for the program's booking page asks for event type
      "30min" of profile "codingtalks123". */
  lemma ProgramLookupUrl()
    ensures var parts := Split(BOOKING_PAGE_URL, '/');
      ParseRequestUrl(LookupUrl(PieceAt(parts, 4), PieceAt(parts, 3))) == Some((
        BASE_URL + "/event_types/lookup", [("event_type_slug", "30min"), ("profile_slug", "codingtalks123")]))
  {
    BookingPageUrlSlugs();
    ProgramSlugsSafe();
    LookupUrlParameters(Some("30min"), Some("codingtalks123"));
  }

  lemma ProgramSlugsSafe()
    ensures QuerySafe("30min") && QuerySafe("codingtalks123")
  {
  }
}
