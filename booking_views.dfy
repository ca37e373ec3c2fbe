/** The booking endpoints: list/detail scoped to the requesting user, create,
    cancel and the per-user summary. The requesting user is a parameter (an
    id and an email), prices are the destinations' `price_per_person` in
    cents, `now` the creation instant and `digits` the random booking-id
    digits. */
module BookingViews {
  import opened Base
  import opened Text
  import opened Lists
  import opened BookingModels
  import opened BookingSerializers

  /** `get_queryset` of the list and detail views: the user's own bookings,
      newest first. */
  function UserBookings(rows: seq<Booking>, user: nat): seq<Booking>
  {
    Ordered(Filter(rows, (b: Booking) => b.user == user))
  }

  /** Exactly the user's bookings are visible, each once as often as stored. */
  lemma UserBookingsScoped(rows: seq<Booking>, user: nat, b: Booking)
    ensures b in UserBookings(rows, user) <==> b in rows && b.user == user
  {
    var mine := Filter(rows, (x: Booking) => x.user == user);
    OrderedNewestFirst(mine);
    assert b in UserBookings(rows, user) <==> b in multiset(UserBookings(rows, user));
    FilterMembers(rows, (x: Booking) => x.user == user, b);
  }

  /** The create request as posted. `primaryContactEmail` is `None` when the
      key is absent. */
  datatype CreateRequest = CreateRequest(
    destination: nat, startDate: int, endDate: int, numberOfTravelers: int,
    primaryContactName: string, primaryContactEmail: Option<string>, primaryContactPhone: string,
    specialRequirements: string, dietaryRestrictions: string,
    travelers: seq<TravelerData>)

  /** A missing contact email is taken from the user's account when it has one. */
  function WithContactEmail(req: CreateRequest, userEmail: string): (r: CreateRequest)
    ensures req.primaryContactEmail.Some? ==> r == req
    ensures req.primaryContactEmail.None? && userEmail != "" ==> r == req.(primaryContactEmail := Some(userEmail))
    ensures req.primaryContactEmail.None? && userEmail == "" ==> r == req
  {
    if req.primaryContactEmail.None? && userEmail != "" then req.(primaryContactEmail := Some(userEmail)) else req
  }

  /** A required text field as the framework's `CharField` reads it: strip,
      then reject an empty result. */
  predicate Blank(s: string)
  {
    Trim(Python, s) == []
  }

  predicate TravelerFieldsOk(t: TravelerData)
  {
    !Blank(t.firstName) && !Blank(t.lastName) && t.dateOfBirth != "" && !Blank(t.nationality)
  }

  /** The fields the framework rejects before `validate` runs, in declaration
      order: an unknown destination, a blank required text field, a traveler
      lacking a required field. */
  function FieldErrors(req: CreateRequest, prices: map<nat, int>): (r: seq<string>)
    ensures r == [] <==>
      req.destination in prices && !Blank(req.primaryContactName) && !Blank(req.primaryContactPhone)
      && req.primaryContactEmail.Some? && !Blank(req.primaryContactEmail.value)
      && forall i :: 0 <= i < |req.travelers| ==> TravelerFieldsOk(req.travelers[i])
  {
    (if req.destination in prices then [] else ["destination"])
    + (if Blank(req.primaryContactName) then ["primary_contact_name"] else [])
    + (if req.primaryContactEmail.None? || Blank(req.primaryContactEmail.value) then ["primary_contact_email"] else [])
    + (if Blank(req.primaryContactPhone) then ["primary_contact_phone"] else [])
    + (if forall i :: 0 <= i < |req.travelers| ==> TravelerFieldsOk(req.travelers[i]) then [] else ["travelers"])
  }

  function ParseTraveler(t: TravelerData): TravelerData
  {
    TravelerData(Trim(Python, t.firstName), Trim(Python, t.lastName), t.dateOfBirth,
                 Trim(Python, t.passportNumber), Trim(Python, t.nationality))
  }

  function ParseTravelers(ts: seq<TravelerData>): (r: seq<TravelerData>)
    ensures |r| == |ts|
    ensures forall i :: 0 <= i < |ts| ==> r[i] == ParseTraveler(ts[i])
  {
    if ts == [] then [] else [ParseTraveler(ts[0])] + ParseTravelers(ts[1..])
  }

  /** The validated data: text fields stripped as `CharField` does. */
  function Parse(req: CreateRequest): (d: CreateData)
    requires req.primaryContactEmail.Some?
    ensures d.destination == req.destination && d.numberOfTravelers == req.numberOfTravelers
    ensures d.startDate == req.startDate && d.endDate == req.endDate
    ensures |d.travelers| == |req.travelers|
  {
    CreateData(req.destination, req.startDate, req.endDate, req.numberOfTravelers,
               Trim(Python, req.primaryContactName), Trim(Python, req.primaryContactEmail.value),
               Trim(Python, req.primaryContactPhone), Trim(Python, req.specialRequirements),
               Trim(Python, req.dietaryRestrictions), ParseTravelers(req.travelers))
  }

  datatype CreateReply =
    | Created(booking: Booking)
    | BadRequest(errors: seq<string>)
    | ServerError(message: string)

  function CreateStatus(r: CreateReply): nat
  {
    match r
    case Created(_) => 201
    case BadRequest(_) => 400
    case ServerError(_) => 500
  }

  const DuplicateBookingId := "Failed to create booking: UNIQUE constraint failed: bookings_booking.booking_id"

  /** `BookingListCreateView.create`. */
  method CreateBooking(store: Store, user: nat, userEmail: string, req: CreateRequest,
                       prices: map<nat, int>, now: int, digits: string)
    returns (reply: CreateReply)
    requires store.Valid() && |digits| == 8 && AllDigits(digits)
    modifies store
    ensures store.Valid()
    ensures var filled := WithContactEmail(req, userEmail);
      FieldErrors(filled, prices) != [] ==>
        reply == BadRequest(FieldErrors(filled, prices)) && unchanged(store)
    ensures var filled := WithContactEmail(req, userEmail);
      FieldErrors(filled, prices) == [] && Validate(Parse(filled)).Some? ==>
        reply == BadRequest([Validate(Parse(filled)).value]) && unchanged(store)
    ensures var filled := WithContactEmail(req, userEmail);
      FieldErrors(filled, prices) == [] && Validate(Parse(filled)).None? ==>
        reply.Created? || reply == ServerError(DuplicateBookingId)
    ensures reply.Created? ==>
      var filled := WithContactEmail(req, userEmail);
      FieldErrors(filled, prices) == [] && Validate(Parse(filled)).None?
      && reply.booking.user == user
      && reply.booking.totalPrice == prices[req.destination] * req.numberOfTravelers
      && store.bookings == old(store.bookings) + [reply.booking]
      && store.travelers == old(store.travelers) + TravelerRows(reply.booking.id, Parse(filled).travelers)
    ensures reply.ServerError? ==> store.bookings == old(store.bookings) && store.travelers == old(store.travelers)
  {
    var filled := WithContactEmail(req, userEmail);
    var errors := FieldErrors(filled, prices);
    if errors != [] {
      return BadRequest(errors);
    }
    var data := Parse(filled);
    var invalid := Validate(data);
    if invalid.Some? {
      return BadRequest([invalid.value]);
    }
    var price := prices[req.destination];
    var booking := Create(store, data, user, price, now, digits);
    if booking.None? {
      return ServerError(DuplicateBookingId);
    }
    var unsaved := NewBooking(data, user, price, now);
    assert booking.value.totalPrice == unsaved.totalPrice == price * req.numberOfTravelers;
    reply := Created(booking.value);
  }

  datatype CancelReply = Cancelled(booking: Booking) | Rejected(status: nat, error: string)

  const AlreadyCancelled := "Booking is already cancelled"
  const CannotCancelCompleted := "Cannot cancel completed booking"
  const NotFound := "No Booking matches the given query."

  /** Primary keys are distinct. */
  predicate UniqueIds(rows: seq<Booking>)
  {
    forall i, j :: 0 <= i < j < |rows| ==> rows[i].id != rows[j].id
  }

  /** `get_object_or_404(Booking, pk=pk, user=request.user)`: the position of
      booking `pk` if the user owns it. */
  function FindOwned(rows: seq<Booking>, user: nat, pk: nat): (r: Option<nat>)
    ensures r.Some? ==> r.value < |rows| && rows[r.value].id == pk && rows[r.value].user == user
    ensures r.None? ==> forall i :: 0 <= i < |rows| ==> !(rows[i].id == pk && rows[i].user == user)
  {
    if rows == [] then None
    else if rows[|rows| - 1].id == pk && rows[|rows| - 1].user == user then Some(|rows| - 1)
    else FindOwned(rows[..|rows| - 1], user, pk)
  }

  /** `cancel_booking` as written: the 404 raised by the lookup is inside the
      `try` whose `except Exception` turns it into a 500. */
  function CancelAsWritten(rows: seq<Booking>, user: nat, pk: nat): (r: (CancelReply, seq<Booking>))
    ensures r.0 == Rejected(500, NotFound) <==>
      forall i :: 0 <= i < |rows| ==> !(rows[i].id == pk && rows[i].user == user)
    ensures r.0.Rejected? <==> r.1 == rows
    ensures r.0.Cancelled? ==>
      |r.1| == |rows| && r.0.booking.status == "cancelled" && r.0.booking in r.1
  {
    match FindOwned(rows, user, pk)
    case None => (Rejected(500, NotFound), rows)
    case Some(k) =>
      if rows[k].status == "cancelled" then (Rejected(400, AlreadyCancelled), rows)
      else if rows[k].status == "completed" then (Rejected(400, CannotCancelCompleted), rows)
      else (Cancelled(rows[k].(status := "cancelled")), rows[k := rows[k].(status := "cancelled")])
  }

  /** `cancel_booking` with the lookup's 404 reaching the client. */
  function Cancel(rows: seq<Booking>, user: nat, pk: nat): (r: (CancelReply, seq<Booking>))
    ensures FindOwned(rows, user, pk).None? ==> r == (Rejected(404, NotFound), rows)
    ensures FindOwned(rows, user, pk).Some? ==> r == CancelAsWritten(rows, user, pk)
  {
    match FindOwned(rows, user, pk)
    case None => (Rejected(404, NotFound), rows)
    case Some(_) => CancelAsWritten(rows, user, pk)
  }

  /** A missing (or someone else's) booking yields a server error. */
  lemma CancelMissingIsServerError(b: Booking)
    requires b.id == 1 && b.user == 7
    ensures CancelAsWritten([b], 8, 1).0 == Rejected(500, NotFound)
    ensures Cancel([b], 8, 1).0 == Rejected(404, NotFound)
  {
  }

  /** Only the addressed booking of the requesting user can change, and only
      its status, which becomes 'cancelled'; a cancelled or completed booking
      is left alone. */
  lemma CancelChangesOnlyStatus(rows: seq<Booking>, user: nat, pk: nat)
    requires UniqueIds(rows)
    ensures var (reply, after) := Cancel(rows, user, pk);
      |after| == |rows|
      && (forall i :: 0 <= i < |rows| && !(rows[i].id == pk && rows[i].user == user) ==> after[i] == rows[i])
      && (reply.Cancelled? <==> exists i :: 0 <= i < |rows| && rows[i].id == pk && rows[i].user == user
                                       && rows[i].status != "cancelled" && rows[i].status != "completed")
      && (reply.Rejected? ==> after == rows)
      && (reply.Cancelled? ==> reply.booking.status == "cancelled" && reply.booking in after)
    ensures (exists i :: 0 <= i < |rows| && rows[i].id == pk && rows[i].user == user && rows[i].status == "completed")
      ==> Cancel(rows, user, pk).0 == Rejected(400, CannotCancelCompleted)
    ensures (exists i :: 0 <= i < |rows| && rows[i].id == pk && rows[i].user == user && rows[i].status == "cancelled")
      ==> Cancel(rows, user, pk).0 == Rejected(400, AlreadyCancelled)
    ensures (forall i :: 0 <= i < |rows| ==> !(rows[i].id == pk && rows[i].user == user))
      ==> Cancel(rows, user, pk).0 == Rejected(404, NotFound)
  {
    var f := FindOwned(rows, user, pk);
    if f.Some? {
      var k := f.value;
      forall i | 0 <= i < |rows| && rows[i].id == pk && rows[i].user == user
        ensures i == k
      {
        assert rows[i].id == rows[k].id;
      }
      if rows[k].status != "cancelled" && rows[k].status != "completed" {
        assert Cancel(rows, user, pk).1[k] == rows[k].(status := "cancelled");
      }
    }
  }

  /** Cancelling twice: the second request is rejected as already cancelled
      and changes nothing. */
  lemma {:induction false} CancelTwice(rows: seq<Booking>, user: nat, pk: nat)
    requires UniqueIds(rows) && Cancel(rows, user, pk).0.Cancelled?
    ensures var after := Cancel(rows, user, pk).1;
      Cancel(after, user, pk) == (Rejected(400, AlreadyCancelled), after)
  {
    var k := FindOwned(rows, user, pk).value;
    var after := Cancel(rows, user, pk).1;
    assert after == rows[k := rows[k].(status := "cancelled")];
    var k2 := FindOwned(after, user, pk);
    assert after[k].id == pk && after[k].user == user;
    assert k2.Some?;
    assert after[k2.value].id == pk;
    assert forall i :: 0 <= i < |after| ==> after[i].id == rows[i].id;
    assert k2.value == k;
  }

  /** The `cancel_booking` endpoint: the store's rows follow `Cancel`. */
  method CancelBooking(store: Store, user: nat, pk: nat) returns (reply: CancelReply)
    requires store.Valid()
    modifies store
    ensures store.Valid()
    ensures (reply, store.bookings) == Cancel(old(store.bookings), user, pk)
    ensures store.travelers == old(store.travelers) && store.nextId == old(store.nextId)
  {
    var found := FindOwned(store.bookings, user, pk);
    if found.None? {
      return Rejected(404, NotFound);
    }
    var k := found.value;
    var b := store.bookings[k];
    if b.status == "cancelled" {
      return Rejected(400, AlreadyCancelled);
    }
    if b.status == "completed" {
      return Rejected(400, CannotCancelCompleted);
    }
    var updated := b.(status := "cancelled");
    assert IndexOf(store.bookings, updated.id) == Some(k) by {
      var j := IndexOf(store.bookings, updated.id);
      assert j.Some?;
    }
    var saved := store.Save(updated, "00000000");
    assert saved == Some(updated);
    reply := Cancelled(updated);
  }

  datatype Summary = Summary(total: nat, pending: nat, confirmed: nat, completed: nat, cancelled: nat)

  function OfUser(user: nat): Booking -> bool
  {
    (b: Booking) => b.user == user
  }

  /** A status filter; `None` lets every booking through. */
  function StatusIs(status: Option<string>): Booking -> bool
  {
    (b: Booking) => status.None? || b.status == status.value
  }

  function WithStatus(rows: seq<Booking>, status: string): nat
  {
    Count(rows, StatusIs(Some(status)))
  }

  /** The user's bookings with the given status (any status for `None`),
      counted in one pass over the table. */
  function Tally(rows: seq<Booking>, user: nat, status: Option<string>): nat
  {
    if rows == [] then 0
    else
      var here := if rows[0].user == user && (status.None? || rows[0].status == status.value) then 1 else 0;
      here + Tally(rows[1..], user, status)
  }

  /** `filter(user=...)` followed by `filter(status=...).count()` counts what
      the one-pass tally counts. */
  lemma {:induction false} CountsTally(rows: seq<Booking>, user: nat, status: Option<string>)
    ensures Count(Filter(rows, OfUser(user)), StatusIs(status)) == Tally(rows, user, status)
  {
    if rows != [] {
      CountsTally(rows[1..], user, status);
      var head := if OfUser(user)(rows[0]) then [rows[0]] else [];
      assert Filter(rows, OfUser(user)) == head + Filter(rows[1..], OfUser(user));
      FilterAppend(head, Filter(rows[1..], OfUser(user)), StatusIs(status));
      if head != [] {
        assert Filter(head, StatusIs(status)) == if StatusIs(status)(rows[0]) then [rows[0]] else [];
      }
    }
  }

  /** `booking_summary` over the user's bookings. Each field counts the
      user's rows of the table with that status, the total all of them. */
  function BookingSummary(rows: seq<Booking>, user: nat): (s: Summary)
    ensures s.total == Tally(rows, user, None)
    ensures s.pending == Tally(rows, user, Some("pending"))
    ensures s.confirmed == Tally(rows, user, Some("confirmed"))
    ensures s.completed == Tally(rows, user, Some("completed"))
    ensures s.cancelled == Tally(rows, user, Some("cancelled"))
  {
    var mine := Filter(rows, OfUser(user));
    FilterAll(mine, StatusIs(None));
    CountsTally(rows, user, None);
    CountsTally(rows, user, Some("pending"));
    CountsTally(rows, user, Some("confirmed"));
    CountsTally(rows, user, Some("completed"));
    CountsTally(rows, user, Some("cancelled"));
    Summary(|mine|, WithStatus(mine, "pending"), WithStatus(mine, "confirmed"),
            WithStatus(mine, "completed"), WithStatus(mine, "cancelled"))
  }

  const KnownStatuses := {"pending", "confirmed", "completed", "cancelled"}

  function HasKnownStatus(): Booking -> bool
  {
    (b: Booking) => b.status in KnownStatuses
  }

  /** The four status counts add up to the count of bookings with a known
      status: no booking has two. */
  lemma {:induction false} FourStatusesDisjoint(mine: seq<Booking>)
    ensures WithStatus(mine, "pending") + WithStatus(mine, "confirmed") + WithStatus(mine, "completed")
      + WithStatus(mine, "cancelled") == Count(mine, HasKnownStatus())
  {
    if mine != [] {
      FourStatusesDisjoint(mine[1..]);
      KnownStatusStep(mine[0]);
      CountStep(mine, StatusIs(Some("pending")));
      CountStep(mine, StatusIs(Some("confirmed")));
      CountStep(mine, StatusIs(Some("completed")));
      CountStep(mine, StatusIs(Some("cancelled")));
      CountStep(mine, HasKnownStatus());
    }
  }

  /** A booking counts towards at most one status, and towards one exactly
      when its status is known. */
  lemma KnownStatusStep(b: Booking)
    ensures (if StatusIs(Some("pending"))(b) then 1 else 0) + (if StatusIs(Some("confirmed"))(b) then 1 else 0)
      + (if StatusIs(Some("completed"))(b) then 1 else 0) + (if StatusIs(Some("cancelled"))(b) then 1 else 0)
      == if HasKnownStatus()(b) then 1 else 0
  {
    StatusesDistinct();
  }

  lemma StatusesDistinct()
    ensures "pending" != "confirmed" && "pending" != "completed" && "pending" != "cancelled"
    ensures "confirmed" != "completed" && "confirmed" != "cancelled" && "completed" != "cancelled"
  {
    assert "confirmed"[3] != "completed"[3] && "confirmed"[1] != "cancelled"[1] && "completed"[1] != "cancelled"[1];
  }

  /** The four status counts never exceed the total, since a booking has one
      status; they add up to the total exactly when every one of the user's
      bookings has one of the four known statuses. */
  lemma SummaryBounded(rows: seq<Booking>, user: nat)
    ensures var s := BookingSummary(rows, user);
      s.pending + s.confirmed + s.completed + s.cancelled <= s.total
    ensures var s := BookingSummary(rows, user);
      s.pending + s.confirmed + s.completed + s.cancelled == s.total <==>
      forall b :: b in rows && b.user == user ==> b.status in KnownStatuses
  {
    var mine := Filter(rows, OfUser(user));
    var s := BookingSummary(rows, user);
    assert s == Summary(|mine|, WithStatus(mine, "pending"), WithStatus(mine, "confirmed"),
                        WithStatus(mine, "completed"), WithStatus(mine, "cancelled"));
    FourStatusesDisjoint(mine);
    CountAllIff(mine, HasKnownStatus());
    forall b
      ensures b in mine <==> b in rows && b.user == user
    {
      FilterMembers(rows, OfUser(user), b);
    }
    assert (forall i :: 0 <= i < |mine| ==> HasKnownStatus()(mine[i])) <==>
      forall b :: b in mine ==> b.status in KnownStatuses;
  }
}
