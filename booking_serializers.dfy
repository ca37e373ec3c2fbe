/** `CreateBookingSerializer`: the cross-field checks and the creation of a
    booking with its travelers. Field-level parsing by the framework is
    represented by the typed `CreateData` it produces. */
module BookingSerializers {
  import opened Base
  import opened Text
  import opened BookingModels

  /** The traveler fields the serializer reads and writes: first_name,
      last_name, date_of_birth, passport_number, nationality (and the read-only
      id, which is the row's position here). */
  datatype TravelerData = TravelerData(
    firstName: string, lastName: string, dateOfBirth: string,
    passportNumber: string, nationality: string)

  datatype CreateData = CreateData(
    destination: nat, startDate: int, endDate: int, numberOfTravelers: int,
    primaryContactName: string, primaryContactEmail: string, primaryContactPhone: string,
    specialRequirements: string, dietaryRestrictions: string,
    travelers: seq<TravelerData>)

  const TravelersMismatch := "Number of travelers must match the travelers list length"
  const EndBeforeStart := "End date must be after start date"

  /** `validate`: the count check runs first, then the date order. */
  function Validate(d: CreateData): (r: Option<string>)
    ensures r.None? <==> |d.travelers| == d.numberOfTravelers && d.startDate < d.endDate
    ensures |d.travelers| != d.numberOfTravelers ==> r == Some(TravelersMismatch)
    ensures |d.travelers| == d.numberOfTravelers && d.startDate >= d.endDate ==> r == Some(EndBeforeStart)
  {
    if |d.travelers| != d.numberOfTravelers then Some(TravelersMismatch)
    else if d.startDate >= d.endDate then Some(EndBeforeStart)
    else None
  }

  /** The booking row `create` writes: the request's user, the total from the
      destination's unit price, the model defaults for status and payment. */
  function NewBooking(d: CreateData, user: nat, pricePerPerson: int, now: int): (r: Booking)
    ensures r.user == user && r.destination == d.destination
    ensures r.totalPrice == pricePerPerson * d.numberOfTravelers
    ensures r.status == DefaultStatus && r.paymentStatus == DefaultPaymentStatus
    ensures r.bookingId == ""
    ensures r.startDate == d.startDate && r.endDate == d.endDate
    ensures r.numberOfTravelers == d.numberOfTravelers
  {
    Booking(0, "", user, d.destination, d.startDate, d.endDate, d.numberOfTravelers,
            pricePerPerson * d.numberOfTravelers,
            d.primaryContactName, d.primaryContactEmail, d.primaryContactPhone,
            d.specialRequirements, d.dietaryRestrictions,
            DefaultStatus, DefaultPaymentStatus, now)
  }

  function TravelerRow(booking: nat, t: TravelerData): BookingTraveler
  {
    BookingTraveler(booking, t.firstName, t.lastName, t.dateOfBirth, t.passportNumber, t.nationality)
  }

  /** One traveler row per entry, in order, each linked to `booking`. */
  function TravelerRows(booking: nat, ts: seq<TravelerData>): (r: seq<BookingTraveler>)
    ensures |r| == |ts|
    ensures forall i :: 0 <= i < |ts| ==> r[i] == TravelerRow(booking, ts[i]) && r[i].booking == booking
  {
    if ts == [] then [] else [TravelerRow(booking, ts[0])] + TravelerRows(booking, ts[1..])
  }

  /** `create`: insert the booking, then one traveler row per entry. When the
      insert fails (a duplicate generated booking id) nothing is written. */
  method Create(store: Store, d: CreateData, user: nat, pricePerPerson: int, now: int, digits: string)
    returns (booking: Option<Booking>)
    requires store.Valid() && |digits| == 8 && AllDigits(digits)
    modifies store
    ensures store.Valid()
    ensures booking.Some? ==>
      booking.value.id == old(store.nextId)
      && booking.value == WithBookingId(NewBooking(d, user, pricePerPerson, now), digits).(id := old(store.nextId))
      && store.bookings == old(store.bookings) + [booking.value]
      && store.travelers == old(store.travelers) + TravelerRows(booking.value.id, d.travelers)
    ensures booking.None? ==> store.bookings == old(store.bookings) && store.travelers == old(store.travelers)
  {
    var b := NewBooking(d, user, pricePerPerson, now).(id := store.nextId);
    booking := store.Save(b, digits);
    if booking.None? {
      return;
    }
    var id := booking.value.id;
    var before := store.travelers;
    var i := 0;
    while i < |d.travelers|
      invariant 0 <= i <= |d.travelers|
      invariant store.Valid() && store.bookings == old(store.bookings) + [booking.value]
      invariant store.travelers == before + TravelerRows(id, d.travelers[..i])
    {
      assert d.travelers[..i + 1] == d.travelers[..i] + [d.travelers[i]];
      TravelerRowsAppend(id, d.travelers[..i], d.travelers[i]);
      store.travelers := store.travelers + [TravelerRow(id, d.travelers[i])];
      i := i + 1;
    }
    assert d.travelers[..i] == d.travelers;
  }

  lemma {:induction false} TravelerRowsAppend(booking: nat, ts: seq<TravelerData>, t: TravelerData)
    ensures TravelerRows(booking, ts + [t]) == TravelerRows(booking, ts) + [TravelerRow(booking, t)]
  {
    if ts != [] {
      TravelerRowsAppend(booking, ts[1..], t);
      assert (ts + [t])[1..] == ts[1..] + [t];
    } else {
      assert ts + [t] == [t];
    }
  }
}
