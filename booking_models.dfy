/** The `Booking` and `BookingTraveler` tables. Dates are day numbers,
    `created_at` an instant, money integer cents. The eight random digits of a
    generated `booking_id` are a parameter. */
module BookingModels {
  import opened Base
  import opened Text
  import opened Sorting

  datatype Booking = Booking(
    id: nat, bookingId: string, user: nat, destination: nat,
    startDate: int, endDate: int, numberOfTravelers: int, totalPrice: int,
    primaryContactName: string, primaryContactEmail: string, primaryContactPhone: string,
    specialRequirements: string, dietaryRestrictions: string,
    status: string, paymentStatus: string, createdAt: int)

  datatype BookingTraveler = BookingTraveler(
    booking: nat, firstName: string, lastName: string, dateOfBirth: string,
    passportNumber: string, nationality: string)

  const DefaultStatus := "confirmed"
  const DefaultPaymentStatus := "pending"
  const BookingIdMaxLength := 20

  /** 'TT' followed by eight decimal digits. */
  predicate IsGeneratedId(s: string)
  {
    |s| == 10 && s[..2] == "TT" && AllDigits(s[2..])
  }

  /** The `booking_id` step of `save`: an empty id is replaced by a generated
      one; any other id is kept. */
  function WithBookingId(b: Booking, digits: string): (r: Booking)
    requires |digits| == 8 && AllDigits(digits)
    ensures b.bookingId != "" ==> r == b
    ensures b.bookingId == "" ==> IsGeneratedId(r.bookingId) && r == b.(bookingId := r.bookingId)
  {
    if b.bookingId != "" then b
    else
      var id := "TT" + digits;
      assert id[2..] == digits;
      b.(bookingId := id)
  }

  /** A generated id fits the 20-character column. */
  lemma GeneratedIdFits(b: Booking, digits: string)
    requires |digits| == 8 && AllDigits(digits) && b.bookingId == ""
    ensures 0 < |WithBookingId(b, digits).bookingId| <= BookingIdMaxLength
  {
  }

  /** `Meta.ordering = ['-created_at']`. */
  function Ordered(rows: seq<Booking>): seq<Booking>
  {
    SortBy(rows, (b: Booking) => b.createdAt, true)
  }

  lemma OrderedNewestFirst(rows: seq<Booking>)
    ensures multiset(Ordered(rows)) == multiset(rows)
    ensures forall i, j :: 0 <= i < j < |Ordered(rows)| ==> Ordered(rows)[i].createdAt >= Ordered(rows)[j].createdAt
  {
    SortByCorrect(rows, (b: Booking) => b.createdAt, true);
  }

  /** Position of the row with primary key `id`. */
  function IndexOf(rows: seq<Booking>, id: nat): (r: Option<nat>)
    ensures r.Some? ==> r.value < |rows| && rows[r.value].id == id
    ensures r.None? ==> forall i :: 0 <= i < |rows| ==> rows[i].id != id
  {
    if rows == [] then None
    else if rows[|rows| - 1].id == id then Some(|rows| - 1)
    else IndexOf(rows[..|rows| - 1], id)
  }

  /** No other row than the one at `skip` carries booking id `bid`. */
  predicate BookingIdFree(rows: seq<Booking>, bid: string, skip: int)
  {
    forall i :: 0 <= i < |rows| && i != skip ==> rows[i].bookingId != bid
  }

  class Store {
    var bookings: seq<Booking>
    var travelers: seq<BookingTraveler>
    var nextId: nat

    /** Primary keys are distinct and below the next key; every saved booking
        has a non-empty, unique booking id. */
    predicate Valid()
      reads this
    {
      (forall i :: 0 <= i < |bookings| ==> bookings[i].id < nextId && bookings[i].bookingId != "")
      && (forall i, j :: 0 <= i < j < |bookings| ==> bookings[i].id != bookings[j].id)
      && (forall i, j :: 0 <= i < j < |bookings| ==> bookings[i].bookingId != bookings[j].bookingId)
    }

    constructor ()
      ensures bookings == [] && travelers == [] && nextId == 1
      ensures Valid()
    {
      bookings := [];
      travelers := [];
      nextId := 1;
    }

    /** `Booking.save`: fill an empty booking id, then update the row with the
        same primary key or insert a new row with the next key. A booking id
        that another row already holds violates the unique constraint and
        nothing is written. */
    method Save(b: Booking, digits: string) returns (saved: Option<Booking>)
      requires Valid() && |digits| == 8 && AllDigits(digits)
      modifies this
      ensures Valid()
      ensures travelers == old(travelers)
      ensures var w := WithBookingId(b, digits);
        match IndexOf(old(bookings), b.id)
        case Some(k) =>
          if BookingIdFree(old(bookings), w.bookingId, k)
          then saved == Some(w) && bookings == old(bookings)[k := w] && nextId == old(nextId)
          else saved.None? && bookings == old(bookings) && nextId == old(nextId)
        case None =>
          if BookingIdFree(old(bookings), w.bookingId, -1)
          then saved == Some(w.(id := old(nextId))) && bookings == old(bookings) + [w.(id := old(nextId))]
               && nextId == old(nextId) + 1
          else saved.None? && bookings == old(bookings) && nextId == old(nextId)
    {
      var w := WithBookingId(b, digits);
      var k := IndexOf(bookings, b.id);
      if k.Some? {
        if BookingIdFree(bookings, w.bookingId, k.value) {
          bookings := bookings[k.value := w];
          saved := Some(w);
        } else {
          saved := None;
        }
      } else {
        if BookingIdFree(bookings, w.bookingId, -1) {
          var row := w.(id := nextId);
          bookings := bookings + [row];
          nextId := nextId + 1;
          saved := Some(row);
        } else {
          saved := None;
        }
      }
    }
  }
}
