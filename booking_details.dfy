/** The booking details page. Its booking may come from navigation state or
    from the API in several shapes, so the fields it reads are loosely typed
    `Value`s and the page falls back from one field to the next. Instants are
    milliseconds since the epoch. */
module BookingDetails {
  import opened Base
  import opened Text
  import opened Js
  import opened Lists

  datatype DetailBooking = DetailBooking(
    id: Value, bookingId: Value, status: Option<string>,
    travelers: Value, guests: Value, passengers: Value, numberOfTravelers: Value,
    duration: Value, days: Value, startDate: Option<int>, endDate: Option<int>)

  /** `getTravelersCount`: a truthy `travelers` that is a number, an array or
      an object decides (an object without keys counts 1); otherwise the first
      of guests, passengers, number_of_travelers that is a non-zero number;
      otherwise 1. */
  function TravelersCount(b: DetailBooking): (r: int)
    ensures b.travelers.Num? && b.travelers.n != 0 ==> r == b.travelers.n
    ensures b.travelers.Arr? ==> r == b.travelers.length
    ensures b.travelers.Obj? ==> r == if b.travelers.keyCount == 0 then 1 else b.travelers.keyCount
    ensures !(IsTruthy(b.travelers) && (b.travelers.Num? || b.travelers.Arr? || b.travelers.Obj?)) ==>
      r == FallbackCount(b)
  {
    var t := b.travelers;
    if t.Num? && t.n != 0 then t.n
    else if t.Arr? then t.length
    else if t.Obj? then (if t.keyCount == 0 then 1 else t.keyCount)
    else FallbackCount(b)
  }

  /** A truthy value of type number. */
  predicate CountGiven(v: Value)
  {
    v.Num? && v.n != 0
  }

  /** The number-typed fallbacks, in order, then 1: the first of guests,
      passengers and number_of_travelers that is given wins. */
  function FallbackCount(b: DetailBooking): (r: int)
    ensures r == 1 || (CountGiven(b.guests) && r == b.guests.n)
      || (CountGiven(b.passengers) && r == b.passengers.n)
      || (CountGiven(b.numberOfTravelers) && r == b.numberOfTravelers.n)
    ensures CountGiven(b.guests) ==> r == b.guests.n
    ensures !CountGiven(b.guests) && CountGiven(b.passengers) ==> r == b.passengers.n
    ensures !CountGiven(b.guests) && !CountGiven(b.passengers) && CountGiven(b.numberOfTravelers) ==>
      r == b.numberOfTravelers.n
    ensures !CountGiven(b.guests) && !CountGiven(b.passengers) && !CountGiven(b.numberOfTravelers) ==> r == 1
    ensures r != 0
  {
    if b.guests.Num? && b.guests.n != 0 then b.guests.n
    else if b.passengers.Num? && b.passengers.n != 0 then b.passengers.n
    else if b.numberOfTravelers.Num? && b.numberOfTravelers.n != 0 then b.numberOfTravelers.n
    else 1
  }

  /** What `getDuration` returns: a number of days, or text shown as is. */
  datatype Duration = Days(n: int) | Text(s: string)

  const DayMillis := 1000 * 60 * 60 * 24

  /** `Math.ceil(Math.abs(end - start) / DayMillis)`. */
  function DaysBetween(start: int, end: int): (r: nat)
    ensures r * DayMillis >= (if end >= start then end - start else start - end)
    ensures r == 0 || (r - 1) * DayMillis < (if end >= start then end - start else start - end)
  {
    var d := if end >= start then end - start else start - end;
    (d + DayMillis - 1) / DayMillis
  }

  /** `getDuration`: a truthy duration that is a number, or a string that
      parses as an integer, wins (an unparsable string is returned as text);
      then a non-zero number of days; then the rounded-up distance between
      the two dates; otherwise 'N/A'. */
  function DurationOf(b: DetailBooking): (r: Duration)
    ensures b.duration.Num? && b.duration.n != 0 ==> r == Days(b.duration.n)
    ensures b.duration.Str? && b.duration.s != "" ==>
      r == if ParseInt(b.duration.s).Some? then Days(ParseInt(b.duration.s).value) else Text(b.duration.s)
    ensures r.Text? && r.s != "N/A" ==> b.duration.Str? && r.s == b.duration.s
  {
    var d := b.duration;
    if d.Num? && d.n != 0 then Days(d.n)
    else if d.Str? && d.s != "" then
      (var parsed := ParseInt(d.s);
       if parsed.Some? then Days(parsed.value) else Text(d.s))
    else if b.days.Num? && b.days.n != 0 then Days(b.days.n)
    else if b.startDate.Some? && b.endDate.Some? then Days(DaysBetween(b.startDate.value, b.endDate.value))
    else Text("N/A")
  }

  /** When the duration comes from the dates it is never negative, and it
      does not depend on which date is the earlier. */
  lemma DurationFromDates(b: DetailBooking)
    requires !IsTruthy(b.duration) && !(b.days.Num? && b.days.n != 0)
    requires b.startDate.Some? && b.endDate.Some?
    ensures DurationOf(b).Days? && DurationOf(b).n >= 0
    ensures DurationOf(b) == DurationOf(b.(startDate := b.endDate, endDate := b.startDate))
  {
  }

  /** What `formatPrice` displays: the fixed text for a falsy price, a number
      as given, a string cleaned down to digits, '.' and '-' before it is
      read as a number, or '$' and the `toLocaleString()` text of any other
      truthy value (`true`, an array or an object). */
  datatype PriceText = NotAvailable | Amount(n: int) | CleanedText(s: string) | Shown(v: Value)

  predicate NumberChar(c: char)
  {
    IsDigit(c) || c == '.' || c == '-'
  }

  function FormatPrice(price: Value): (r: PriceText)
    ensures r.NotAvailable? <==> !IsTruthy(price)
    ensures r.Amount? <==> IsTruthy(price) && price.Num?
    ensures r.Amount? ==> r.n == price.n
    ensures r.CleanedText? <==> IsTruthy(price) && price.Str?
    ensures r.CleanedText? ==> forall i :: 0 <= i < |r.s| ==> NumberChar(r.s[i])
    ensures r.CleanedText? ==> multiset(r.s) <= multiset(price.s)
    ensures r.Shown? <==> IsTruthy(price) && (price.Bool? || price.Arr? || price.Obj?)
    ensures r.Shown? ==> r.v == price
  {
    if !IsTruthy(price) then NotAvailable
    else match price
      case Num(n) => Amount(n)
      case Str(s) => CleanedText(Filter(s, NumberChar))
      case _ => Shown(price)
  }

  /** Cleaning removes exactly the other characters. */
  lemma CleanedKeepsNumberChars(s: string, c: char)
    requires s != ""
    ensures FormatPrice(Str(s)).CleanedText?
    ensures c in FormatPrice(Str(s)).s <==> c in s && NumberChar(c)
  {
    FilterMembers(s, NumberChar, c);
  }

  /** The status badge: the lower-cased status (missing reads as '') picks a
      colour; anything else is slate. */
  datatype Colour = Emerald | Amber | Red | Indigo | Slate

  /** The lower-cased status, '' when missing. */
  function StatusKey(status: Option<string>): string
  {
    if status.Some? then Lower(status.value) else ""
  }

  function ColourOf(s: string): Colour
  {
    if s == "confirmed" then Emerald
    else if s == "pending" then Amber
    else if s == "cancelled" then Red
    else if s == "completed" then Indigo
    else Slate
  }

  function StatusColour(status: Option<string>): (r: Colour)
    ensures r == Slate <==> status.None? || Lower(status.value) !in {"confirmed", "pending", "cancelled", "completed"}
  {
    ColourOf(StatusKey(status))
  }

  datatype StatusIcon = CheckCircle | Clock | XMark | InformationCircle

  /** The icon: completed shares the confirmed check mark. */
  function StatusIconOf(status: Option<string>): (r: StatusIcon)
    ensures r == InformationCircle <==> StatusColour(status) == Slate
    ensures r == CheckCircle <==> StatusColour(status) in {Emerald, Indigo}
  {
    IconOf(StatusKey(status))
  }

  function IconOf(s: string): StatusIcon
  {
    if s == "confirmed" || s == "completed" then CheckCircle
    else if s == "pending" then Clock
    else if s == "cancelled" then XMark
    else InformationCircle
  }

  /** The cancel button is rendered only for a confirmed booking, in any case. */
  predicate CancelOffered(b: DetailBooking)
  {
    b.status.Some? && Lower(b.status.value) == "confirmed"
  }

  lemma MappingsIgnoreCase(s: string)
    ensures StatusColour(Some(s)) == StatusColour(Some(Lower(s)))
    ensures StatusIconOf(Some(s)) == StatusIconOf(Some(Lower(s)))
  {
    LowerIdempotent(s);
    assert StatusKey(Some(Lower(s))) == StatusKey(Some(s));
  }

  /** What the detail endpoint answered with: `response.data || response`. */
  datatype DetailResponse = Wrapped(data: DetailBooking) | Direct(booking: DetailBooking)

  function Unwrap(r: DetailResponse): DetailBooking
  {
    match r
    case Wrapped(data) => data
    case Direct(booking) => booking
  }

  const NoInformation := "No booking information available"
  const LoadFailed := "Failed to load booking details"

  class Page {
    var booking: Option<DetailBooking>
    var loading: bool
    var error: Option<string>

    constructor ()
      ensures booking.None? && loading && error.None?
    {
      booking := None;
      loading := true;
      error := None;
    }

    /** The mount effect: a booking handed over in navigation state is used
      as is; otherwise a truthy id in the route is fetched; otherwise there is
      nothing to show. */
    method Mount(stateBooking: Option<DetailBooking>, routeId: string, response: Outcome<DetailResponse>)
      returns (fetched: bool)
      modifies this
      ensures !loading
      ensures fetched <==> stateBooking.None? && routeId != ""
      ensures stateBooking.Some? ==> booking == stateBooking && error == old(error)
      ensures fetched && response.Ok? ==> booking == Some(Unwrap(response.value)) && error.None?
      ensures fetched && response.Failed? ==> booking == old(booking) && error == Some(LoadFailed)
      ensures stateBooking.None? && routeId == "" ==> booking == old(booking) && error == Some(NoInformation)
    {
      fetched := false;
      if stateBooking.Some? {
        booking := stateBooking;
      } else if routeId != "" {
        fetched := true;
        loading := true;
        if response.Ok? {
          booking := Some(Unwrap(response.value));
          error := None;
        } else {
          error := Some(LoadFailed);
        }
      } else {
        error := Some(NoInformation);
      }
      loading := false;
    }

    /** `handleCancelBooking`: only after the user confirms is a request sent,
      for `id || booking_id`; only its success marks the booking cancelled,
      and no other field changes. */
    method HandleCancelBooking(confirmed: bool, result: Outcome<()>) returns (sent: Option<Value>)
      requires booking.Some?
      modifies this
      ensures sent.Some? <==> confirmed
      ensures sent.Some? ==>
        sent.value == (if IsTruthy(old(booking).value.id) then old(booking).value.id else old(booking).value.bookingId)
      ensures confirmed && result.Ok? ==> booking == Some(old(booking).value.(status := Some("cancelled")))
      ensures !confirmed || result.Failed? ==> booking == old(booking)
      ensures loading == old(loading) && error == old(error)
    {
      if !confirmed {
        return None;
      }
      var b := booking.value;
      sent := Some(if IsTruthy(b.id) then b.id else b.bookingId);
      if result.Ok? {
        booking := Some(b.(status := Some("cancelled")));
      }
    }
  }

  /** Once cancelled, the page no longer offers the cancel action. */
  lemma CancelledNotOffered(b: DetailBooking)
    ensures !CancelOffered(b.(status := Some("cancelled")))
  {
  }
}
