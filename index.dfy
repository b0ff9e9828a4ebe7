/** The program's `main`: fetch the coming week's availability, pick the
    first bookable spot in day order and book it for a fixed invitee. The
    availability answer and the booking call are parameters; what `main`
    prints is reduced to the outcome it reports. */
module Driver {

  import opened Wrappers
  import opened Calendly

  const INVITEE_NAME := "John Doe"
  const INVITEE_EMAIL := "john.doe@example.com"

  // ---------------------------------------------------------------------------
  // selection rule
  // ---------------------------------------------------------------------------

  /** The spots of a day, an absent list read as empty. */
  function SpotsOf(day: CalendlyEvent): seq<Spot>
  {
    match day.spots
    case Some(spots) => spots
    case None => []
  }

  /** A spot that can still take an invitee. */
  predicate IsBookable(spot: Spot)
  {
    spot.status == "available" && spot.inviteesRemaining > 0
  }

  /** The early exit of `main`: no days at all, or a first day without spots.
      Later days are not looked at. */
  predicate NoSlotsShortcut(days: seq<CalendlyEvent>)
  {
    |days| == 0 || |SpotsOf(days[0])| == 0
  }

  /** Spot `j` of day `i` may be booked: the day is available and the spot is bookable. */
  predicate Qualifies(days: seq<CalendlyEvent>, i: int, j: int)
  {
    0 <= i < |days| && days[i].status == "available" &&
    0 <= j < |SpotsOf(days[i])| && IsBookable(SpotsOf(days[i])[j])
  }

  /** Spot `j` of day `i` qualifies and no qualifying spot comes before it in
      day-major, spot-minor order. */
  ghost predicate IsFirstQualifying(days: seq<CalendlyEvent>, i: int, j: int)
  {
    Qualifies(days, i, j) &&
    forall i2, j2 :: Qualifies(days, i2, j2) ==> i < i2 || (i == i2 && j <= j2)
  }

  /** The position `Array.prototype.find` stops at: the first bookable spot,
      or the length when there is none. */
  function FirstBookableIndex(spots: seq<Spot>): (k: nat)
    ensures k <= |spots|
    ensures k < |spots| ==> IsBookable(spots[k])
    ensures forall j :: 0 <= j < k ==> !IsBookable(spots[j])
  {
    if |spots| == 0 then 0
    else if IsBookable(spots[0]) then 0
    else 1 + FirstBookableIndex(spots[1..])
  }

  /** `spots.find(isBookable)`. */
  function FindBookable(spots: seq<Spot>): (r: Option<Spot>)
    ensures r.None? <==> forall j :: 0 <= j < |spots| ==> !IsBookable(spots[j])
    ensures r.Some? ==> r.value == spots[FirstBookableIndex(spots)]
  {
    var k := FirstBookableIndex(spots);
    if k < |spots| then Some(spots[k]) else None
  }

  /** Reference definition of the day loop: the first day that is available,
      has spots and has a bookable one supplies the spot. */
  function ScanDays(days: seq<CalendlyEvent>): Option<Spot>
  {
    if |days| == 0 then None
    else
      var day := days[0];
      var found := if day.status == "available" && |SpotsOf(day)| > 0 then FindBookable(SpotsOf(day)) else None;
      if found.Some? then found else ScanDays(days[1..])
  }

  /** The selection of `main` as one function from the day list to an optional spot. */
  function SelectSpot(days: seq<CalendlyEvent>): Option<Spot>
  {
    if NoSlotsShortcut(days) then None else ScanDays(days)
  }

  /** The day loop finds a spot exactly when some spot qualifies, and the
      spot it finds is the first qualifying one. */
  lemma {:induction false} ScanDaysFirst(days: seq<CalendlyEvent>)
    ensures ScanDays(days).Some? ==>
      exists i, j :: IsFirstQualifying(days, i, j) && ScanDays(days).value == SpotsOf(days[i])[j]
    ensures ScanDays(days).None? <==> forall i, j :: !Qualifies(days, i, j)
    decreases |days|
  {
    if |days| > 0 {
      var day, rest := days[0], days[1..];
      var spots := SpotsOf(day);
      var k := FirstBookableIndex(spots);
      var here := day.status == "available" && |spots| > 0 && k < |spots|;
      assert forall i: int, j: int :: 1 <= i ==> (Qualifies(days, i, j) <==> Qualifies(rest, i - 1, j)) by {
        assert forall i :: 1 <= i < |days| ==> days[i] == rest[i - 1];
      }
      if here {
        assert Qualifies(days, 0, k);
        assert IsFirstQualifying(days, 0, k);
      } else {
        assert forall j :: !Qualifies(days, 0, j);
        ScanDaysFirst(rest);
        if ScanDays(rest).Some? {
          var i, j :| IsFirstQualifying(rest, i, j) && ScanDays(rest).value == SpotsOf(rest[i])[j];
          assert Qualifies(days, i + 1, j);
          assert IsFirstQualifying(days, i + 1, j);
        } else {
          forall i, j
            ensures !Qualifies(days, i, j)
          {
            if 1 <= i {
              assert !Qualifies(rest, i - 1, j);
            }
          }
        }
      }
    }
  }

  /** `main`'s selection yields a spot only past the early exit, and then
      exactly the first qualifying spot; it yields nothing when the early exit
      is taken or no spot qualifies. */
  lemma SelectSpotCharacterized(days: seq<CalendlyEvent>)
    ensures NoSlotsShortcut(days) ==> SelectSpot(days).None?
    ensures SelectSpot(days).Some? ==>
      exists i, j :: IsFirstQualifying(days, i, j) && SelectSpot(days).value == SpotsOf(days[i])[j]
    ensures !NoSlotsShortcut(days) ==> (SelectSpot(days).None? <==> forall i, j :: !Qualifies(days, i, j))
  {
    ScanDaysFirst(days);
  }

  /** The early exit wins over any later spot: a first day without spots
      means nothing is selected, even when a later day has a qualifying spot. */
  lemma FirstDayShortcutHidesLaterSpots()
    ensures var days := [
      CalendlyEvent("2024-01-01", "available", None),
      CalendlyEvent("2024-01-02", "available", Some([Spot("available", "2024-01-02T09:00:00Z", 1)]))];
      Qualifies(days, 1, 0) && SelectSpot(days) == None
  {
  }

  /** The day loop skips a day that is not available, whatever its spots. */
  lemma {:induction false} ScanSkipsUnavailable(days: seq<CalendlyEvent>, i: nat, day: CalendlyEvent)
    requires i < |days| && days[i].status != "available" && day.status != "available"
    ensures ScanDays(days[i := day]) == ScanDays(days)
    decreases i
  {
    var changed := days[i := day];
    if i > 0 {
      assert changed[1..] == days[1..][i - 1 := day];
      ScanSkipsUnavailable(days[1..], i - 1, day);
    } else {
      assert changed[1..] == days[1..];
    }
  }

  /** Past the first day, exchanging an unavailable day for another
      unavailable day, with any spots, never changes the selection. */
  lemma UnavailableDayIgnored(days: seq<CalendlyEvent>, i: nat, day: CalendlyEvent)
    requires 0 < i < |days| && days[i].status != "available" && day.status != "available"
    ensures SelectSpot(days[i := day]) == SelectSpot(days)
  {
    ScanSkipsUnavailable(days, i, day);
  }

  /** The `for` loop of `main`: for each available day with spots, look for a
      bookable spot and stop at the first day that has one. */
  method FindFirstSpot(days: seq<CalendlyEvent>) returns (r: Option<Spot>)
    ensures r == ScanDays(days)
    ensures r.Some? ==> exists i, j :: IsFirstQualifying(days, i, j) && r.value == SpotsOf(days[i])[j]
    ensures r.None? <==> forall i, j :: !Qualifies(days, i, j)
  {
    ScanDaysFirst(days);
    r := None;
    var d := 0;
    while d < |days|
      invariant 0 <= d <= |days|
      invariant ScanDays(days[d..]) == ScanDays(days)
    {
      var day := days[d];
      assert days[d..][0] == day && days[d..][1..] == days[d + 1..];
      if day.status == "available" && day.spots.Some? && |day.spots.value| > 0 {
        var found := FindBookable(day.spots.value);
        if found.Some? {
          r := found;
          break;
        }
      }
      d := d + 1;
    }
  }

  // ---------------------------------------------------------------------------
  // booking and the reported outcome
  // ---------------------------------------------------------------------------

  /** What `main` reports about the booking call. */
  datatype BookingReport =
    | BookingSucceeded(response: BookEventResponse)
    | BookingIncomplete
    | BookingFailed(message: string)

  /** The success check: a response must be present and carry a non-empty
      `uri` and a non-empty `uuid`; a rejected call reports its message. */
  function ReportOf(reply: Result<Option<BookEventResponse>, string>): (r: BookingReport)
    ensures r.BookingSucceeded? <==>
      reply.Success? && reply.value.Some? && reply.value.value.uri != "" && reply.value.value.uuid != ""
    ensures r.BookingSucceeded? ==> r.response == reply.value.value
    ensures r.BookingFailed? <==> reply.Failure?
    ensures r.BookingFailed? ==> r.message == reply.error
  {
    match reply
    case Failure(message) => BookingFailed(message)
    case Success(response) =>
      if response.Some? && response.value.uri != "" && response.value.uuid != "" then BookingSucceeded(response.value)
      else BookingIncomplete
  }

  /** How a run of `main` ends. */
  datatype RunOutcome =
    | MainFailed(message: string)
    | NoTimeSlots
    | NoAvailableSpots
    | Booked(request: EventData, report: BookingReport)

  /** `main`: `events` is what `getAvailableEvents` answered and `book` stands
      for `bookEvent`. Booking happens only when a spot was selected, with
      that spot's start time and the fixed invitee. */
  method Run(events: Result<seq<CalendlyEvent>, string>,
             book: EventData -> Result<Option<BookEventResponse>, string>)
    returns (outcome: RunOutcome)
    ensures events.Failure? ==> outcome == MainFailed(events.error)
    ensures events.Success? && NoSlotsShortcut(events.value) ==> outcome == NoTimeSlots
    ensures events.Success? && !NoSlotsShortcut(events.value) && SelectSpot(events.value).None? ==>
      outcome == NoAvailableSpots
    ensures outcome.MainFailed? ==> events.Failure?
    ensures events.Success? ==> (outcome.Booked? <==> SelectSpot(events.value).Some?)
    ensures events.Success? ==>
      (outcome.Booked? <==> !NoSlotsShortcut(events.value) && exists i, j :: Qualifies(events.value, i, j))
    ensures outcome.Booked? ==> events.Success?
    ensures outcome.Booked? && events.Success? ==>
      exists i, j :: IsFirstQualifying(events.value, i, j) &&
        outcome.request == EventData(SpotsOf(events.value[i])[j].startTime, INVITEE_NAME, INVITEE_EMAIL)
    ensures outcome.Booked? ==> outcome.report == ReportOf(book(outcome.request))
  {
    if events.Failure? {
      return MainFailed(events.error);
    }
    var days := events.value;
    if |days| == 0 || days[0].spots.None? || |days[0].spots.value| == 0 {
      return NoTimeSlots;
    }
    var spot := FindFirstSpot(days);
    if spot.None? {
      return NoAvailableSpots;
    }
    var request := EventData(spot.value.startTime, INVITEE_NAME, INVITEE_EMAIL);
    var reply := book(request);
    outcome := Booked(request, ReportOf(reply));
  }
}
