/** The contact endpoints: `submit_contact_form` and the admin list's
    query-parameter filters. */
module ContactViews {
  import opened Base
  import opened Lists
  import opened ContactModels
  import opened ContactSerializers

  const Created := 201
  const BadRequest := 400
  const ServerError := 500

  datatype SubmitResponse = SubmitResponse(
    status: int, success: bool, contactId: Option<nat>, errors: map<string, string>)

  /** `submit_contact_form`. Invalid data is answered 400 with the errors and
      nothing is stored. Valid data is stored and answered 201 with the new
      row's id; the two notification mails are attempted afterwards and their
      failures (`confirmationFails`, `adminMailFails`) are only logged. A
      failing insert (`saveFails`) is caught and answered 500. */
  method SubmitContactForm(table: ContactTable, data: ContactFields, now: int,
                           saveFails: bool, confirmationFails: bool, adminMailFails: bool)
    returns (response: SubmitResponse)
    requires table.Valid()
    modifies table
    ensures table.Valid()
    ensures Validate(data).Invalid? ==>
      response == SubmitResponse(BadRequest, false, None, Validate(data).errors)
      && table.rows == old(table.rows) && table.nextId == old(table.nextId)
    ensures Validate(data).Valid? && saveFails ==>
      response == SubmitResponse(ServerError, false, None, map[])
      && table.rows == old(table.rows) && table.nextId == old(table.nextId)
    ensures Validate(data).Valid? && !saveFails ==>
      response == SubmitResponse(Created, true, Some(old(table.nextId)), map[])
      && table.rows == old(table.rows) + [NewContact(Validate(data).fields, old(table.nextId), now)]
    ensures response.success <==> response.status == Created
  {
    var v := Validate(data);
    if v.Invalid? {
      return SubmitResponse(BadRequest, false, None, v.errors);
    }
    if saveFails {
      return SubmitResponse(ServerError, false, None, map[]);
    }
    var contact := table.Insert(v.fields, now);
    response := SubmitResponse(Created, true, Some(contact.id), map[]);
  }

  /** `if status_filter:` / `if category_filter:` — an absent or empty
      parameter does not filter. */
  predicate Given(p: Option<string>)
  {
    p.Some? && p.value != ""
  }

  function ByStatus(status: string): Contact -> bool
  {
    (c: Contact) => c.status == status
  }

  function ByCategory(category: string): Contact -> bool
  {
    (c: Contact) => c.category == category
  }

  /** The rows the admin list wants for the given parameters. */
  function Wanted(status: Option<string>, category: Option<string>): Contact -> bool
  {
    (c: Contact) => (Given(status) ==> c.status == status.value) && (Given(category) ==> c.category == category.value)
  }

  /** The list holds exactly the stored rows that match every given
      parameter, newest first. */
  lemma {:induction false} WantedMembers(rows: seq<Contact>, status: Option<string>, category: Option<string>, c: Contact)
    ensures c in Filter(Ordered(rows), Wanted(status, category)) <==>
      c in rows && (Given(status) ==> c.status == status.value) && (Given(category) ==> c.category == category.value)
  {
    OrderedNewestFirst(rows);
    FilterMembers(Ordered(rows), Wanted(status, category), c);
    assert c in Ordered(rows) <==> c in multiset(rows);
  }

  /** The successive reassignments filter once by the conjunction. */
  lemma StepsAreOneFilter(all: seq<Contact>, status: Option<string>, category: Option<string>)
    ensures Filter(all, Wanted(status, category)) ==
      if Given(status) && Given(category) then Filter(Filter(all, ByStatus(status.value)), ByCategory(category.value))
      else if Given(status) then Filter(all, ByStatus(status.value))
      else if Given(category) then Filter(all, ByCategory(category.value))
      else all
  {
    var both := Wanted(status, category);
    if Given(status) && Given(category) {
      FilterFilter(all, ByStatus(status.value), ByCategory(category.value), both);
    } else if Given(status) {
      FilterExt(all, ByStatus(status.value), both);
    } else if Given(category) {
      FilterExt(all, ByCategory(category.value), both);
    } else {
      FilterAll(all, both);
    }
  }

  /** `ContactListView.get_queryset`: the table in its default order,
      narrowed by status when that parameter is given, then by category when
      that one is. */
  method GetQueryset(rows: seq<Contact>, status: Option<string>, category: Option<string>)
    returns (queryset: seq<Contact>)
    ensures queryset == Filter(Ordered(rows), Wanted(status, category))
    ensures !Given(status) && !Given(category) ==> queryset == Ordered(rows)
  {
    queryset := Ordered(rows);
    if Given(status) {
      queryset := Filter(queryset, ByStatus(status.value));
    }
    if Given(category) {
      queryset := Filter(queryset, ByCategory(category.value));
    }
    StepsAreOneFilter(Ordered(rows), status, category);
  }
}
