/** The "Bookings" page: status tabs with counts, the request parameters of
    the list fetch, the status badges, and the cancel dialog. */
module BookingsPage {
  import opened Base
  import opened Text
  import opened Lists
  import opened ClientBookings

  /** The list endpoint's answer: a paginated object carrying `results`, or a
      bare list (`response.results || response`). */
  datatype ListResponse = Paginated(results: seq<ClientBooking>) | Bare(items: seq<ClientBooking>)

  function Rows(r: ListResponse): seq<ClientBooking>
  {
    match r
    case Paginated(results) => results
    case Bare(items) => items
  }

  const LoadFailed := "Failed to load bookings. Please try again."

  /** The query parameters of the list fetch. */
  function Params(filter: string): (r: seq<(string, string)>)
    ensures r == [] <==> filter == "all"
    ensures r != [] ==> r == [("status", filter)]
  {
    if filter != "all" then [("status", filter)] else []
  }

  datatype Tab = Tab(id: string, name: string, count: nat)

  /** The four filter tabs: 'all' counts every booking, the others count
      bookings of exactly that status. */
  function Tabs(bookings: seq<ClientBooking>): (r: seq<Tab>)
    ensures |r| == 4 && r[0].id == "all" && r[0].count == |bookings|
    ensures forall k :: 1 <= k < 4 ==> r[k].count == StatusCount(bookings, r[k].id)
  {
    [Tab("all", "All Bookings", |bookings|),
     Tab("confirmed", "Confirmed", StatusCount(bookings, "confirmed")),
     Tab("pending", "Pending", StatusCount(bookings, "pending")),
     Tab("cancelled", "Cancelled", StatusCount(bookings, "cancelled"))]
  }

  /** The three status tabs together never count more than the 'all' tab. */
  lemma TabsBounded(bookings: seq<ClientBooking>)
    ensures Tabs(bookings)[1].count + Tabs(bookings)[2].count + Tabs(bookings)[3].count <= Tabs(bookings)[0].count
  {
    var c := (b: ClientBooking) => HasStatus(b, "confirmed");
    var p := (b: ClientBooking) => HasStatus(b, "pending");
    var x := (b: ClientBooking) => HasStatus(b, "cancelled");
    var cp := (b: ClientBooking) => HasStatus(b, "confirmed") || HasStatus(b, "pending");
    var cpx := (b: ClientBooking) => HasStatus(b, "confirmed") || HasStatus(b, "pending") || HasStatus(b, "cancelled");
    CountDisjoint(bookings, c, p, cp);
    CountDisjoint(bookings, cp, x, cpx);
  }

  datatype Badge = Green | Red | Yellow | Gray

  /** `getStatusColor` (and, in the same shape, `getStatusIcon`): exact,
      case-sensitive matches; anything else is neutral. */
  function StatusColor(status: Option<string>): (r: Badge)
    ensures r == Gray <==> status !in {Some("confirmed"), Some("cancelled"), Some("pending")}
    ensures r == Green <==> status == Some("confirmed")
  {
    match status
    case Some("confirmed") => Green
    case Some("cancelled") => Red
    case Some("pending") => Yellow
    case _ => Gray
  }

  datatype Icon = CheckCircle | XCircle | Clock | ExclamationTriangle

  function StatusIcon(status: Option<string>): (r: Icon)
    ensures r == ExclamationTriangle <==> StatusColor(status) == Gray
  {
    match status
    case Some("confirmed") => CheckCircle
    case Some("cancelled") => XCircle
    case Some("pending") => Clock
    case _ => ExclamationTriangle
  }

  /** The cancel action is rendered only for confirmed bookings. */
  predicate CancelOffered(b: ClientBooking)
  {
    b.status == Some("confirmed")
  }

  class Page {
    var bookings: seq<ClientBooking>
    var isLoading: bool
    var error: Option<string>
    var filter: string
    var selectedBooking: Option<ClientBooking>
    var showCancelModal: bool
    var cancelReason: string

    /** The dialog is open exactly when a booking is selected, and only a
        booking offering the cancel action can be selected. */
    predicate Valid()
      reads this
    {
      showCancelModal == selectedBooking.Some?
      && (selectedBooking.Some? ==> CancelOffered(selectedBooking.value))
    }

    constructor ()
      ensures Valid()
      ensures bookings == [] && isLoading && error.None? && filter == "all"
      ensures selectedBooking.None? && !showCancelModal && cancelReason == ""
    {
      bookings := [];
      isLoading := true;
      error := None;
      filter := "all";
      selectedBooking := None;
      showCancelModal := false;
      cancelReason := "";
    }

    /** `loadBookings`: asks for the current filter's parameters; keeps the
      rows of a successful answer, or reports the fixed message and keeps the
      old rows. */
    method LoadBookings(response: Outcome<ListResponse>) returns (params: seq<(string, string)>)
      requires Valid()
      modifies this
      ensures Valid() && !isLoading
      ensures params == Params(filter)
      ensures filter == old(filter) && selectedBooking == old(selectedBooking)
      ensures showCancelModal == old(showCancelModal) && cancelReason == old(cancelReason)
      ensures response.Ok? ==> bookings == Rows(response.value) && error.None?
      ensures response.Failed? ==> bookings == old(bookings) && error == Some(LoadFailed)
    {
      isLoading := true;
      error := None;
      params := Params(filter);
      if response.Ok? {
        bookings := Rows(response.value);
      } else {
        error := Some(LoadFailed);
      }
      isLoading := false;
    }

    /** Choosing a tab sets the filter. The fetch effect depends on the
      filter and on `isAuthenticated`, so it runs only when the filter
      changes and the user is signed in; otherwise nothing else changes. */
    method SelectTab(id: string, isAuthenticated: bool, response: Outcome<ListResponse>)
      returns (params: Option<seq<(string, string)>>)
      requires Valid()
      modifies this
      ensures Valid() && filter == id
      ensures params.Some? <==> id != old(filter) && isAuthenticated
      ensures selectedBooking == old(selectedBooking)
      ensures showCancelModal == old(showCancelModal) && cancelReason == old(cancelReason)
      ensures params.None? ==>
        bookings == old(bookings) && isLoading == old(isLoading) && error == old(error)
      ensures params.Some? ==> params.value == Params(id) && !isLoading
      ensures params.Some? && response.Ok? ==> bookings == Rows(response.value) && error.None?
      ensures params.Some? && response.Failed? ==> bookings == old(bookings) && error == Some(LoadFailed)
    {
      var changed := id != filter;
      filter := id;
      if changed && isAuthenticated {
        var sent := LoadBookings(response);
        params := Some(sent);
      } else {
        params := None;
      }
    }

    /** The per-row "Cancel Booking" button. */
    method OpenCancel(b: ClientBooking)
      requires Valid() && CancelOffered(b)
      modifies this
      ensures Valid() && selectedBooking == Some(b) && showCancelModal
      ensures cancelReason == old(cancelReason) && bookings == old(bookings) && filter == old(filter)
    {
      selectedBooking := Some(b);
      showCancelModal := true;
    }

    method SetCancelReason(reason: string)
      modifies this
      ensures cancelReason == reason
      ensures selectedBooking == old(selectedBooking) && showCancelModal == old(showCancelModal)
      ensures bookings == old(bookings) && filter == old(filter)
    {
      cancelReason := reason;
    }

    /** "Keep Booking": closes the dialog and forgets the selection and the
        reason. */
    method KeepBooking()
      modifies this
      ensures Valid() && selectedBooking.None? && !showCancelModal && cancelReason == ""
      ensures bookings == old(bookings) && filter == old(filter)
    {
      showCancelModal := false;
      selectedBooking := None;
      cancelReason := "";
    }

    /** `handleCancelBooking`: without a selection or with a reason that is
      blank after trimming, nothing is sent and nothing changes. Otherwise the
      selected id and the reason are sent; on success the dialog closes, the
      reason and selection are cleared and the list is fetched again; on
      failure the dialog stays as it was. */
    method HandleCancelBooking(result: Outcome<()>, reload: Outcome<ListResponse>)
      returns (sent: Option<(nat, string)>)
      requires Valid()
      modifies this
      ensures Valid()
      ensures sent.None? <==> old(selectedBooking).None? || Trim(Browser, old(cancelReason)) == ""
      ensures sent.Some? ==> sent.value == (old(selectedBooking).value.id, old(cancelReason))
      ensures sent.None? || result.Failed? ==>
        selectedBooking == old(selectedBooking) && showCancelModal == old(showCancelModal)
        && cancelReason == old(cancelReason) && bookings == old(bookings)
      ensures sent.Some? && result.Ok? ==>
        selectedBooking.None? && !showCancelModal && cancelReason == ""
        && (reload.Ok? ==> bookings == Rows(reload.value))
      ensures filter == old(filter)
    {
      if selectedBooking.None? || Trim(Browser, cancelReason) == "" {
        return None;
      }
      sent := Some((selectedBooking.value.id, cancelReason));
      if result.Ok? {
        showCancelModal := false;
        cancelReason := "";
        selectedBooking := None;
        var _ := LoadBookings(reload);
      }
    }
  }
}
