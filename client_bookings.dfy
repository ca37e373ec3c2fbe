/** A booking as the booking pages receive it from the bookings API: the
    fields those pages read. Instants (`created_at`) are milliseconds since
    the epoch, dates (`start_date`) day numbers, money integer cents. A field
    the response may lack is an `Option`. */
module ClientBookings {
  import opened Base
  import opened Js
  import opened Lists

  datatype ClientBooking = ClientBooking(
    id: nat, bookingId: Option<string>, destinationName: Option<string>,
    status: Option<string>, paymentStatus: Option<string>,
    createdAt: int, startDate: int, totalPrice: Numeric)

  /** `b.status === s`: a missing status equals no string. */
  predicate HasStatus(b: ClientBooking, s: string)
  {
    b.status == Some(s)
  }

  /** `bookings.filter(b => b.status === s).length`. */
  function StatusCount(bookings: seq<ClientBooking>, s: string): (r: nat)
    ensures r <= |bookings|
  {
    Count(bookings, (b: ClientBooking) => HasStatus(b, s))
  }

  /** Counts of two different statuses never exceed the number of bookings,
      since no booking carries both. */
  lemma TwoStatusesBounded(bookings: seq<ClientBooking>, s: string, t: string)
    requires s != t
    ensures StatusCount(bookings, s) + StatusCount(bookings, t) <= |bookings|
  {
    var p := (b: ClientBooking) => HasStatus(b, s);
    var q := (b: ClientBooking) => HasStatus(b, t);
    var pq := (b: ClientBooking) => HasStatus(b, s) || HasStatus(b, t);
    CountDisjoint(bookings, p, q, pq);
  }
}
