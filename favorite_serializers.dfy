/** The favourites serializers: the rows they read and write, the checks on
    the destination ids a request names, and what a favourite list shows of
    its items. */
module FavoriteSerializers {
  import opened Base
  import opened Lists
  import opened Sorting

  /** A favourite: the user, the destination and when it was added. */
  datatype Favorite = Favorite(user: nat, destination: nat, createdAt: int)

  /** A named favourite list and its owner. */
  datatype FavoriteList = FavoriteList(id: nat, user: nat, name: string, description: string, isPublic: bool)

  /** A destination in a list, with the owner's notes. */
  datatype ListItem = ListItem(listId: nat, destination: nat, notes: string, addedAt: int)

  const DestinationNotFound := "Destination not found"
  const FieldRequired := "This field is required."

  /** `FavoriteToggleSerializer`: the id must be sent and name an existing
      destination. */
  function ValidateDestinationId(id: Option<int>, existing: set<nat>): (r: Option<string>)
    ensures r.None? <==> id.Some? && id.value >= 0 && id.value in existing
    ensures id.None? ==> r == Some(FieldRequired)
    ensures id.Some? && r.Some? ==> r.value == DestinationNotFound
  {
    if id.None? then Some(FieldRequired)
    else if id.value >= 0 && id.value in existing then None
    else Some(DestinationNotFound)
  }

  /** `validate_destination_ids`: the ids that name no destination. */
  function UnknownIds(ids: seq<int>, existing: set<nat>): set<int>
  {
    set i | i in ids && !(i >= 0 && i in existing)
  }

  /** The list is accepted, empty or not, exactly when every id names a
      destination; otherwise the error carries precisely the unknown ids. */
  function ValidateDestinationIds(ids: seq<int>, existing: set<nat>): (r: Option<set<int>>)
    ensures r.None? <==> forall i :: i in ids ==> i >= 0 && i in existing
    ensures r.Some? ==> r.value != {} && forall i :: i in r.value <==> i in ids && !(i >= 0 && i in existing)
    ensures ids == [] ==> r.None?
  {
    var unknown := UnknownIds(ids, existing);
    assert forall i :: i in ids && !(i >= 0 && i in existing) ==> i in unknown;
    assert (forall i :: i in ids ==> i >= 0 && i in existing) ==> unknown == {};
    if unknown == {} then None
    else
      assert forall i :: i in unknown <==> i in ids && !(i >= 0 && i in existing);
      Some(unknown)
  }

  function OfList(listId: nat): ListItem -> bool
  {
    (it: ListItem) => it.listId == listId
  }

  function AddedAt(it: ListItem): int
  {
    it.addedAt
  }

  /** The list's items, newest first (the item model's ordering). */
  function ItemsOf(items: seq<ListItem>, listId: nat): seq<ListItem>
  {
    SortBy(Filter(items, OfList(listId)), AddedAt, true)
  }

  /** `get_destinations` of the list serializer: the first three. */
  function Preview(items: seq<ListItem>, listId: nat): seq<ListItem>
  {
    Take(ItemsOf(items, listId), 3)
  }

  /** `get_destinations` of the detail serializer: all of them. */
  function Detail(items: seq<ListItem>, listId: nat): seq<ListItem>
  {
    ItemsOf(items, listId)
  }

  /** `get_destinations_count`: the list's rows in the through table. */
  function DestinationsCount(items: seq<ListItem>, listId: nat): nat
  {
    |Filter(items, OfList(listId))|
  }

  /** The detail holds exactly the list's items, newest first; the preview
      is its first three; the count is every item, so it exceeds the
      preview's length exactly when there are more than three. */
  lemma ListViews(items: seq<ListItem>, listId: nat)
    ensures forall it :: it in Detail(items, listId) <==> it in items && it.listId == listId
    ensures SortedBy(Detail(items, listId), AddedAt, true)
    ensures |Detail(items, listId)| == DestinationsCount(items, listId)
    ensures |Preview(items, listId)| <= 3
    ensures Preview(items, listId) == Detail(items, listId)[..|Preview(items, listId)|]
    ensures |Preview(items, listId)| < DestinationsCount(items, listId) <==> DestinationsCount(items, listId) > 3
  {
    var mine := Filter(items, OfList(listId));
    SortByCorrect(mine, AddedAt, true);
    forall it ensures it in Detail(items, listId) <==> it in items && it.listId == listId {
      FilterMembers(items, OfList(listId), it);
      assert it in Detail(items, listId) <==> it in multiset(Detail(items, listId));
      assert it in mine <==> it in multiset(mine);
    }
  }

  /** `create` of both model serializers: the owner is the requester,
      whatever the request said. */
  function CreateFavorite(destination: nat, requester: nat, now: int): (r: Favorite)
    ensures r.user == requester && r.destination == destination
  {
    Favorite(requester, destination, now)
  }

  function CreateList(id: nat, name: string, description: string, isPublic: bool, requester: nat): (r: FavoriteList)
    ensures r.user == requester && r.id == id && r.name == name
  {
    FavoriteList(id, requester, name, description, isPublic)
  }
}
