# Calendly booking client — a Dafny model

This project models a small client for Calendly's internal booking API. The
client is built from a booking page URL such as
`https://calendly.com/codingtalks123/30min` and does two things:

- it looks up the event type, asks for the calendar of today and the next
  seven days, and returns the list of days with their spots;
- it books a start time for an invitee, with the event type's first location
  configuration or a video-conference default.

The program's `main` first checks the first day only: when the day list is
empty or its first day lists no spots, it stops with "no time slots".
Otherwise it takes the first bookable spot of a day whose status is
"available", day by day and then spot by spot, and books it for a fixed
invitee ("John Doe", `john.doe@example.com`).

The model is split into five modules:

- `Wrappers` holds `Option` and `Result`.
- `Text` holds the JavaScript string built-ins the client uses:
  - `split` with one separator character, proved to be the inverse of join;
  - `String(n)`, proved to give digits that denote `n`;
  - `padStart`.
- `JsDate` holds the local calendar fields of a JavaScript `Date`:
  - a day count from 1970-01-01 serves as the reference for dates;
  - `RollOver` and `AddDays` move a date, proved to keep the day count right;
  - the class `LocalDate` stands for a mutable `Date` whose `setDate` rolls
    over month and year ends.
- `Calendly` models `CalendlyService`:
  - the constructor's slug split;
  - `formatDate`, proved against the `full-date` production of section 5.6 of
    RFC 3339 (`ParseFullDate`);
  - `calculateDateRange`, as a method that moves a `LocalDate` in place;
  - the location fallback and the booking payload;
  - the lookup and availability URLs, proved against a reader of
    `path?key=value&...` URLs;
  - `getAvailableEvents` and `bookEvent`, as methods of the class
    `CalendlyService`.
- `Driver` models the selection loop of `main` and its booking step.

The three HTTP calls are function-typed parameters:

- `lookup` answers the event-type lookup for a URL;
- `fetchDays` answers the availability query for a URL;
- `send` answers the booking request for a payload.

"Today" is a parameter too.

Details of the source that the model keeps:

- The URL split is done on the whole URL, not on its path. So pieces 3 and 4
  of `https://calendly.com/a/b` are `a` and `b`.
- A missing piece is `undefined` and is printed as the text "undefined" in the
  lookup URL.
- A failed call surfaces as one fixed message per operation:
  - "Failed to fetch available events from Calendly";
  - "Failed to book event with Calendly".
- The early exit of `main` looks at the first day only. An empty list, or a
  first day without spots, ends the run with "no time slots" even when a later
  day has a bookable spot.
- A bookable spot on a day whose status is not "available" is never chosen.
- `main` has a third booking report, besides success and failure: a response
  without a non-empty `uri` and `uuid` is reported as incomplete.

## Model

| member | source | states |
|---|---|---|
| `Calendly.CalendlyService.constructor` | src/CalendlyService.ts:71-75 | the profile slug is piece 3 and the event type slug is piece 4 of the URL split on '/', undefined when the URL has fewer pieces |
| `Text.Split` | src/CalendlyService.ts:73-74 | `split('/')` gives at least one piece, no piece contains the separator, and joining the pieces with the separator gives back the input |
| `Text.SplitJoin` | src/CalendlyService.ts:73-74 | splitting a join of separator-free pieces gives back exactly those pieces, so split and join are inverse |
| `Text.PieceAt` | src/CalendlyService.ts:73-74 | indexing the split result is defined exactly below its length and is then that piece |
| `Calendly.BookingPageSlugs` | src/CalendlyService.ts:73-74 | for any URL `scheme//host/profile/eventType[/...]` with '/'-free parts, the slugs are exactly `profile` and `eventType` |
| `Calendly.BookingPageUrlSlugs` | src/index.ts:3-5 | the program's booking page gives profile slug "codingtalks123" and event type slug "30min" |
| `Calendly.LookupUrl` | src/CalendlyService.ts:113 | the lookup URL built from the two slugs, an undefined slug printed as "undefined"; what it reads back as is stated by `LookupUrlParameters` |
| `Calendly.CalendlyService.EventTypeLookupUrl` | src/CalendlyService.ts:112-114 | the URL `fetchEventTypeDetails` asks for: the lookup URL of the service's own slugs |
| `Calendly.LookupUrlParameters` | src/CalendlyService.ts:112-114 | the lookup URL reads back as path `BASE_URL/event_types/lookup` with exactly the parameters `event_type_slug` and then `profile_slug`, carrying the slugs (or "undefined"), when neither slug holds '?', '&' or '=' |
| `Calendly.ProgramLookupUrl` | src/CalendlyService.ts:113 | the service built for the program's page looks up event type "30min" of profile "codingtalks123" |
| `Text.NatToString` | src/CalendlyService.ts:156-158 | `String(n)` is a non-empty digit string with no leading zero that denotes `n` |
| `Text.IntToString` | src/CalendlyService.ts:156-158 | `String(i)` for an integer; what it denotes is stated by `Text.IntToStringDigits` |
| `Text.IntToStringDigits` | src/CalendlyService.ts:156-158 | `String(i)` of a non-negative number is a digit string with no leading zero that denotes `i`; of a negative number it is '-' followed by such a digit string denoting `-i` |
| `Text.NatToStringWidth` | src/CalendlyService.ts:156 | the digits of `n` fit in `k` places exactly when `n < 10^k` |
| `Text.PadStart` | src/CalendlyService.ts:157-158 | `padStart(w, '0')` has length `max(len, w)`, ends with the input and is filled with '0' in front |
| `Text.TwoDigits` | src/CalendlyService.ts:157-158 | a number below 100 padded to two places is two digits that denote that number |
| `Calendly.FormatDate` | src/CalendlyService.ts:155-160 | `formatDate`: year, '-', 1-based month and day padded to two places; its layout, length, RFC 3339 round trip and query safety are stated by `FourDigitYearLayout`, `FormattedLength`, `FormatDateIsFullDate` and `FormatDateQuerySafe` |
| `Calendly.FourDigitYearLayout` | src/CalendlyService.ts:155-160 | for years 1000–9999 the date has length 10, '-' at 4 and 7, the year digits, then the 1-based month and the day zero-padded to two places |
| `Calendly.FormattedLength` | src/CalendlyService.ts:155-160 | the formatted date is six characters longer than the printed year |
| `Calendly.FourDigitYearRoundTrip` | src/CalendlyService.ts:155-160 | for years 1000–9999, reading the formatted date as an RFC 3339 full-date gives back the same date |
| `Calendly.OtherYearNotFullDate` | src/CalendlyService.ts:155-160 | for any other year (negative, short or five-digit) the formatted date is not an RFC 3339 full-date |
| `Calendly.FormatDateIsFullDate` | src/CalendlyService.ts:155-160 | the formatted date is an RFC 3339 full-date for the same date if and only if the year has four digits |
| `Calendly.FormatDateQuerySafe` | src/CalendlyService.ts:155-160 | a formatted date holds only digits and '-', and hence no '?', '&' or '=' |
| `JsDate.RollOver` | src/CalendlyService.ts:124 | the date `setDate(k)` lands on is a valid date with the same day count as day `k` of the current month, for any `k` |
| `JsDate.AddDays` | src/CalendlyService.ts:124 | adding `n` days gives a valid date whose day count is exactly `n` more |
| `JsDate.DayNumberInjective` | src/CalendlyService.ts:124 | two valid dates with the same day count are the same date |
| `JsDate.LocalDate.constructor` | src/CalendlyService.ts:123 | a new `Date` holds the given valid calendar date |
| `JsDate.LocalDate.SetDate` | src/CalendlyService.ts:124 | `setDate` keeps the date valid, moves it to the day count of day `k` of the old month, and rolls over month and year ends |
| `Calendly.CalculateDateRange` | src/CalendlyService.ts:118-130 | the start is today formatted and the end is the date `daysAhead` days later, formatted |
| `Calendly.DateRangeEnd` | src/CalendlyService.ts:118-130 | a date with a four-digit year is written as the range end if and only if it is exactly `daysAhead` days after today |
| `Calendly.GetLocationConfiguration` | src/CalendlyService.ts:163-168 | the first configuration's kind, location and data when the list is present and non-empty, otherwise the `google_conference` default with no location and empty data |
| `Calendly.CreateBookingPayload` | src/CalendlyService.ts:170-194 | start time, name and email are copied, the location is copied unchanged, guests are empty, timezone is "Asia/Calcutta", notation is "12h", and both uuids come from the event type |
| `Calendly.PayloadDeterminedByInputs` | src/CalendlyService.ts:175-193 | two payloads are equal if and only if their invitee data, locations and event type uuids agree |
| `Calendly.BuildAvailabilityUrl` | src/CalendlyService.ts:141-153 | `buildAvailabilityUrl`; its shape and what it reads back as are stated by `AvailabilityUrlShape`, `AvailabilityQueryPairs` and `AvailabilityUrlParameters` |
| `Calendly.AvailabilityUrlShape` | src/CalendlyService.ts:141-153 | the availability URL is its path, '?', and the five `key=value` pieces joined by '&' |
| `Calendly.AvailabilityQueryPairs` | src/CalendlyService.ts:147-151 | the five pieces read back as timezone, diagnostics, range start, range end and scheduling link uuid, in that order |
| `Calendly.AvailabilityUrlParameters` | src/CalendlyService.ts:141-153 | the availability URL reads back as path `BASE_URL/event_types/<uuid>/calendar/range` with exactly those five parameters, in order, when the uuid holds no '?' and neither the scheduling link uid nor the two range dates hold '?', '&' or '=' (formatted dates never do) |
| `Calendly.CalendlyService.GetAvailableEvents` | src/CalendlyService.ts:77-90 | the answer is the availability reply for the event type's URL and the range from today to 7 days later; a failed lookup or fetch becomes the fixed fetch error |
| `Calendly.CalendlyService.FetchAvailability` | src/CalendlyService.ts:132-139 | the reply is the answer to the availability URL of the event type and range, whose reading is stated by `AvailabilityUrlParameters` |
| `Calendly.CalendlyService.BookEvent` | src/CalendlyService.ts:92-110 | the answer is the reply to the payload built from the event data, the looked-up event type and its location; a failed lookup or send becomes the fixed booking error |
| `Driver.FirstBookableIndex` | src/index.ts:17-19 | the position where `find` stops: every earlier spot is not bookable, and a spot found there is bookable |
| `Driver.FindBookable` | src/index.ts:17-19 | `find` returns nothing exactly when no spot is bookable, otherwise the first bookable spot |
| `Driver.ScanDays` | src/index.ts:15-28 | reference definition of the day loop; `ScanDaysFirst` states that it yields the first qualifying spot, and nothing exactly when none qualifies |
| `Driver.ScanDaysFirst` | src/index.ts:15-28 | the day loop finds a spot if and only if some spot of an available day is bookable, and the spot it finds is the first such spot in day-major, spot-minor order |
| `Driver.FindFirstSpot` | src/index.ts:14-28 | the `for` loop with `break` computes the day loop's result: the first qualifying spot, or nothing exactly when no spot qualifies |
| `Driver.SelectSpot` | src/index.ts:10-32 | the early exit, then the day loop; `SelectSpotCharacterized` states its result |
| `Driver.SelectSpotCharacterized` | src/index.ts:10-32 | the early exit yields nothing; past it, the selection is the first qualifying spot, and nothing exactly when none qualifies |
| `Driver.FirstDayShortcutHidesLaterSpots` | src/index.ts:10-13 | a first day without spots selects nothing even when a later day has a qualifying spot |
| `Driver.ScanSkipsUnavailable` | src/index.ts:16 | replacing an unavailable day by another unavailable day, with any spots, does not change the day loop's result |
| `Driver.UnavailableDayIgnored` | src/index.ts:16 | after the first day, an unavailable day never influences the selection |
| `Driver.ReportOf` | src/index.ts:42-55 | success is reported exactly when a response is present with non-empty `uri` and `uuid`; a rejected booking reports its message |
| `Driver.Run` | src/index.ts:7-59 | a fetch error ends the run, and only a fetch error does; the early exit ends it with "no slots"; past the early exit, no qualifying spot ends it with "no available spots"; booking happens if and only if a qualifying spot exists past the early exit; the booking uses the first qualifying spot's start time and the fixed invitee; the report is that booking's report |

## Left out

- Network transport is not modelled. The axios calls of `fetchEventTypeDetails`, `fetchAvailability` and `sendBookingRequest` are parameters (`lookup`, `fetchDays`, `send`) whose answers are given.
- The wall clock is not modelled. "Today" is a parameter, and both `new Date()` reads in `calculateDateRange` are taken to show that same day.
- Calendly.CalculateDateRange: does not model a run that crosses midnight between the two `new Date()` reads, where the two dates would start on different days.
- Time of day, time zones, daylight saving time and the range limit of JavaScript time values are not modelled. A date is its local year, month and day.
- Console output, the `main()` invocation and async scheduling are not modelled. The wrapped error's cause is not modelled either; only the fixed messages that the catch blocks throw are kept.
- `CalendarBaseService` is not modelled. It is an abstract base class with no logic.
- Calendly.GetLocationConfiguration: returns only the kind, location and data of the first configuration, not the whole object. The id, position and conferencing flag are never read by the payload.
- `guests` is typed as a list of strings. The source only ever writes the empty list there.
- Values of the wrong JSON type are not modelled: a non-integer `invitees_remaining`, or `days` that is not a list.
- Driver.Run: takes the answer of `getAvailableEvents` and a function standing for `bookEvent` as parameters. It does not call the two service methods itself.
