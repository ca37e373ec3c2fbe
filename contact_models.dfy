/** The `Contact` table: one row per contact-form submission, with the
    defaults the model declares and the `mark_responded` transition. */
module ContactModels {
  import opened Base
  import opened Sorting

  datatype Contact = Contact(
    id: nat, name: string, email: string, phone: Option<string>, subject: string,
    category: string, message: string, newsletter: bool,
    status: string, createdAt: int, respondedAt: Option<int>, adminNotes: string)

  const Categories: seq<string> := ["general", "booking", "destinations", "feedback", "partnership", "technical"]
  const Statuses: seq<string> := ["pending", "in_progress", "resolved", "closed"]
  const DefaultCategory := "general"
  const DefaultStatus := "pending"
  const Resolved := "resolved"

  /** The fields a submission may set. `category` and `newsletter` may be
      left out; `id`, `status` and `created_at` are not writable at all. */
  datatype ContactFields = ContactFields(
    name: string, email: string, phone: Option<string>, subject: string,
    category: Option<string>, message: string, newsletter: Option<bool>)

  /** The row a submission creates: the model defaults fill what was left
      out; the status is always the default and nothing has been answered. */
  function NewContact(f: ContactFields, id: nat, now: int): (r: Contact)
    ensures r.id == id && r.createdAt == now && r.status == DefaultStatus && r.respondedAt.None?
    ensures r.category == (if f.category.Some? then f.category.value else DefaultCategory)
    ensures r.newsletter <==> f.newsletter == Some(true)
    ensures r.name == f.name && r.email == f.email && r.phone == f.phone
    ensures r.subject == f.subject && r.message == f.message && r.adminNotes == ""
  {
    Contact(id, f.name, f.email, f.phone, f.subject,
      if f.category.Some? then f.category.value else DefaultCategory,
      f.message, f.newsletter == Some(true), DefaultStatus, now, None, "")
  }

  /** A submission that sets neither category nor newsletter gets 'general',
      no newsletter, and the pending status, whichever of the declared values
      those are. */
  lemma NewContactDefaults(f: ContactFields, id: nat, now: int)
    requires f.category.None? && f.newsletter.None?
    ensures NewContact(f, id, now).category == Categories[0]
    ensures !NewContact(f, id, now).newsletter
    ensures NewContact(f, id, now).status == Statuses[0]
  {
  }

  /** `mark_responded` on a row value. */
  function Responded(c: Contact, now: int): Contact
  {
    c.(status := Resolved, respondedAt := Some(now))
  }

  /** Responding twice is responding once, at the later time. */
  lemma RespondedTwice(c: Contact, t1: int, t2: int)
    ensures Responded(Responded(c, t1), t2) == Responded(c, t2)
    ensures Responded(Responded(c, t1), t2).status in Statuses
  {
  }

  /** `Meta.ordering = ['-created_at']`. */
  function Ordered(rows: seq<Contact>): seq<Contact>
  {
    SortBy(rows, (c: Contact) => c.createdAt, true)
  }

  lemma OrderedNewestFirst(rows: seq<Contact>)
    ensures multiset(Ordered(rows)) == multiset(rows)
    ensures forall i, j :: 0 <= i < j < |Ordered(rows)| ==> Ordered(rows)[i].createdAt >= Ordered(rows)[j].createdAt
  {
    SortByCorrect(rows, (c: Contact) => c.createdAt, true);
  }

  class ContactTable {
    var rows: seq<Contact>
    var nextId: nat

    /** Primary keys are distinct and below the next key. */
    predicate Valid()
      reads this
    {
      (forall i :: 0 <= i < |rows| ==> rows[i].id < nextId)
      && (forall i, j :: 0 <= i < j < |rows| ==> rows[i].id != rows[j].id)
    }

    constructor ()
      ensures rows == [] && nextId == 1 && Valid()
    {
      rows := [];
      nextId := 1;
    }

    /** `serializer.save()`: insert a row under the next key. */
    method Insert(f: ContactFields, now: int) returns (c: Contact)
      requires Valid()
      modifies this
      ensures Valid()
      ensures c == NewContact(f, old(nextId), now)
      ensures rows == old(rows) + [c] && nextId == old(nextId) + 1
    {
      c := NewContact(f, nextId, now);
      rows := rows + [c];
      nextId := nextId + 1;
    }

    /** `mark_responded` on the row at position `i`: it is resolved and
      stamped; no other row or field changes. */
    method MarkResponded(i: nat, now: int)
      requires Valid() && i < |rows|
      modifies this
      ensures Valid()
      ensures rows == old(rows)[i := Responded(old(rows)[i], now)] && nextId == old(nextId)
      ensures rows[i].status == Resolved && rows[i].respondedAt.Some?
    {
      rows := rows[i := Responded(rows[i], now)];
    }
  }
}
