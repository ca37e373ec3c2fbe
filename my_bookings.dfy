/** The "My Bookings" page: the fetched list, the search / status filter, the
    sort selector, the summary figures and the badge mappings. */
module MyBookings {
  import opened Base
  import opened Text
  import opened Js
  import opened Lists
  import opened Sorting
  import opened ClientBookings

  /** What the bookings endpoint answered with: an array, or any other JSON
      value (a paginated object, say). */
  datatype ApiValue = ArrayValue(items: seq<ClientBooking>) | OtherValue

  const LoginRequired := "Please log in to view your bookings"

  /** The search test: an empty term matches everything; otherwise the term
      must occur, ignoring case, in the destination name or the booking id,
      where either may be missing. */
  predicate MatchesSearch(b: ClientBooking, term: string)
  {
    term == ""
    || (b.destinationName.Some? && ContainsIgnoreCase(b.destinationName.value, term))
    || (b.bookingId.Some? && ContainsIgnoreCase(b.bookingId.value, term))
  }

  /** The status test: 'all' or exactly the booking's status. */
  predicate MatchesStatus(b: ClientBooking, statusFilter: string)
  {
    statusFilter == "all" || HasStatus(b, statusFilter)
  }

  predicate Matches(b: ClientBooking, term: string, statusFilter: string)
  {
    MatchesSearch(b, term) && MatchesStatus(b, statusFilter)
  }

  /** The sort selector. The comparators subtract dates, so each named order
      is an ascending or descending sort on one key; any other value compares
      every pair as equal, and the stable sort then keeps the order. */
  function SortBookings(s: seq<ClientBooking>, sortBy: string): seq<ClientBooking>
  {
    if sortBy == "newest" then SortBy(s, (b: ClientBooking) => b.createdAt, true)
    else if sortBy == "oldest" then SortBy(s, (b: ClientBooking) => b.createdAt, false)
    else if sortBy == "departure-soon" then SortBy(s, (b: ClientBooking) => b.startDate, false)
    else if sortBy == "departure-later" then SortBy(s, (b: ClientBooking) => b.startDate, true)
    else s
  }

  /** `filteredAndSortedBookings`. */
  function Visible(bookings: seq<ClientBooking>, term: string, statusFilter: string, sortBy: string): seq<ClientBooking>
  {
    SortBookings(Filter(bookings, (b: ClientBooking) => Matches(b, term, statusFilter)), sortBy)
  }

  /** Sorting only reorders, and each named order is ordered by its key. */
  lemma SortBookingsCorrect(s: seq<ClientBooking>, sortBy: string)
    ensures multiset(SortBookings(s, sortBy)) == multiset(s)
    ensures sortBy == "newest" ==> SortedBy(SortBookings(s, sortBy), (b: ClientBooking) => b.createdAt, true)
    ensures sortBy == "oldest" ==> SortedBy(SortBookings(s, sortBy), (b: ClientBooking) => b.createdAt, false)
    ensures sortBy == "departure-soon" ==> SortedBy(SortBookings(s, sortBy), (b: ClientBooking) => b.startDate, false)
    ensures sortBy == "departure-later" ==> SortedBy(SortBookings(s, sortBy), (b: ClientBooking) => b.startDate, true)
    ensures sortBy !in {"newest", "oldest", "departure-soon", "departure-later"} ==> SortBookings(s, sortBy) == s
  {
    var created := (b: ClientBooking) => b.createdAt;
    var start := (b: ClientBooking) => b.startDate;
    SortByCorrect(s, created, true);
    SortByCorrect(s, created, false);
    SortByCorrect(s, start, true);
    SortByCorrect(s, start, false);
  }

  /** The list shown holds exactly the fetched bookings that pass both tests,
      never more copies of one than were fetched. */
  lemma VisibleExactly(bookings: seq<ClientBooking>, term: string, statusFilter: string, sortBy: string, b: ClientBooking)
    ensures b in Visible(bookings, term, statusFilter, sortBy) <==> b in bookings && Matches(b, term, statusFilter)
    ensures multiset(Visible(bookings, term, statusFilter, sortBy)) <= multiset(bookings)
  {
    var p := (x: ClientBooking) => Matches(x, term, statusFilter);
    var f := Filter(bookings, p);
    SortBookingsCorrect(f, sortBy);
    FilterMembers(bookings, p, b);
    assert b in Visible(bookings, term, statusFilter, sortBy) <==> b in multiset(f);
  }

  /** The summary cards. They are computed from every fetched booking and so
      do not depend on the search, status or sort selection. */
  datatype Stats = Stats(totalBookings: nat, confirmedBookings: nat, pendingBookings: nat, totalSpent: int)

  /** `parseFloat(b.total_price || 0)`. */
  function Spent(b: ClientBooking): int
  {
    ValueOrZero(b.totalPrice)
  }

  function StatsOf(bookings: seq<ClientBooking>): Stats
  {
    Stats(|bookings|, StatusCount(bookings, "confirmed"), StatusCount(bookings, "pending"),
          Sum(bookings, Spent))
  }

  lemma StatsBounded(bookings: seq<ClientBooking>)
    ensures StatsOf(bookings).confirmedBookings + StatsOf(bookings).pendingBookings <= StatsOf(bookings).totalBookings
  {
    TwoStatusesBounded(bookings, "confirmed", "pending");
  }

  /** The total spent adds up booking by booking: concatenating two lists adds
      their totals, and a booking without a truthy price adds nothing. */
  lemma TotalSpentAdds(s: seq<ClientBooking>, t: seq<ClientBooking>)
    ensures StatsOf(s + t).totalSpent == StatsOf(s).totalSpent + StatsOf(t).totalSpent
    ensures forall b: ClientBooking :: !Truthy(b.totalPrice) ==> StatsOf(s + [b]).totalSpent == StatsOf(s).totalSpent
  {
    SumAppend(s, t, Spent);
    forall b: ClientBooking | !Truthy(b.totalPrice)
      ensures StatsOf(s + [b]).totalSpent == StatsOf(s).totalSpent
    {
      SumAppend(s, [b], Spent);
    }
  }

  const ConfirmedClass := "status-badge status-confirmed"
  const PendingClass := "status-badge status-pending"
  const CancelledClass := "status-badge status-cancelled"

  /** `getStatusClass`: the lower-cased status picks a badge; a missing or
      unknown status shows as confirmed. */
  function StatusClass(status: Option<string>): (r: string)
    ensures r in {ConfirmedClass, PendingClass, CancelledClass}
    ensures r == PendingClass <==> status.Some? && Lower(status.value) == "pending"
    ensures r == CancelledClass <==> status.Some? && Lower(status.value) == "cancelled"
  {
    if status.None? then ConfirmedClass
    else
      var s := Lower(status.value);
      if s == "confirmed" then ConfirmedClass
      else if s == "pending" then PendingClass
      else if s == "cancelled" then CancelledClass
      else ConfirmedClass
  }

  datatype StatusIcon = CheckCircle | Clock | XCircle | ExclamationCircle

  /** `getStatusIcon`: like the class, except that a missing or unknown status
      gets the exclamation icon rather than the confirmed one. */
  function StatusIconOf(status: Option<string>): (r: StatusIcon)
    ensures r == ExclamationCircle <==> status.None? || Lower(status.value) !in {"confirmed", "pending", "cancelled"}
  {
    if status.None? then ExclamationCircle
    else
      var s := Lower(status.value);
      if s == "confirmed" then CheckCircle
      else if s == "pending" then Clock
      else if s == "cancelled" then XCircle
      else ExclamationCircle
  }

  const PaidClass := "payment-badge payment-paid"
  const PaymentPendingClass := "payment-badge payment-pending"
  const FailedClass := "payment-badge payment-failed"

  /** `getPaymentStatusClass`: a missing or unknown payment status shows as
      pending. */
  function PaymentStatusClass(status: Option<string>): (r: string)
    ensures r in {PaidClass, PaymentPendingClass, FailedClass}
    ensures r == PaidClass <==> status.Some? && Lower(status.value) == "paid"
    ensures r == FailedClass <==> status.Some? && Lower(status.value) == "failed"
  {
    if status.None? then PaymentPendingClass
    else
      var s := Lower(status.value);
      if s == "paid" then PaidClass
      else if s == "pending" then PaymentPendingClass
      else if s == "failed" then FailedClass
      else PaymentPendingClass
  }

  /** The mappings ignore case: a status and its lower-case form map alike. */
  lemma MappingsIgnoreCase(s: string)
    ensures StatusClass(Some(s)) == StatusClass(Some(Lower(s)))
    ensures StatusIconOf(Some(s)) == StatusIconOf(Some(Lower(s)))
    ensures PaymentStatusClass(Some(s)) == PaymentStatusClass(Some(Lower(s)))
  {
    LowerIdempotent(s);
  }

  class Page {
    var bookings: seq<ClientBooking>
    var loading: bool
    var error: Option<string>
    var searchTerm: string
    var statusFilter: string
    var sortBy: string

    constructor ()
      ensures bookings == [] && loading && error.None?
      ensures searchTerm == "" && statusFilter == "all" && sortBy == "newest"
    {
      bookings := [];
      loading := true;
      error := None;
      searchTerm := "";
      statusFilter := "all";
      sortBy := "newest";
    }

    /** The rows rendered for the current selection. */
    function Shown(): seq<ClientBooking>
      reads this
    {
      Visible(bookings, searchTerm, statusFilter, sortBy)
    }

    /** The mount effect: signed out, it only reports that a login is needed;
      signed in, it fetches. A non-array answer is stored as an empty list; a
      failed request keeps the list and reports `Error: <message>`. Loading
      ends either way. */
    method Mount(isAuthenticated: bool, response: Outcome<ApiValue>)
      modifies this
      ensures !loading
      ensures searchTerm == old(searchTerm) && statusFilter == old(statusFilter) && sortBy == old(sortBy)
      ensures !isAuthenticated ==> error == Some(LoginRequired) && bookings == old(bookings)
      ensures isAuthenticated && response.Ok? ==>
        error.None? && bookings == (if response.value.ArrayValue? then response.value.items else [])
      ensures isAuthenticated && response.Failed? ==>
        error == Some("Error: " + response.message) && bookings == old(bookings)
    {
      if !isAuthenticated {
        error := Some(LoginRequired);
        loading := false;
        return;
      }
      loading := true;
      error := None;
      match response {
        case Ok(data) =>
          bookings := if data.ArrayValue? then data.items else [];
        case Failed(message) =>
          error := Some("Error: " + message);
      }
      loading := false;
    }

    method SetSearchTerm(term: string)
      modifies this
      ensures searchTerm == term
      ensures bookings == old(bookings) && statusFilter == old(statusFilter) && sortBy == old(sortBy)
      ensures loading == old(loading) && error == old(error)
    {
      searchTerm := term;
    }

    method SetStatusFilter(f: string)
      modifies this
      ensures statusFilter == f
      ensures bookings == old(bookings) && searchTerm == old(searchTerm) && sortBy == old(sortBy)
      ensures loading == old(loading) && error == old(error)
    {
      statusFilter := f;
    }

    method SetSortBy(key: string)
      modifies this
      ensures sortBy == key
      ensures bookings == old(bookings) && searchTerm == old(searchTerm) && statusFilter == old(statusFilter)
      ensures loading == old(loading) && error == old(error)
    {
      sortBy := key;
    }
  }
}
