/** The favourites endpoints: toggling a favourite, the status of several
    destinations at once, and adding to and removing from a named list. The
    database is a `Store` whose tables are sequences of rows. */
module FavoriteViews {
  import opened Base
  import opened Lists
  import opened FavoriteSerializers

  const ListNotFound := "No FavoriteList matches the given query."
  const DestinationMissing := "No Destination matches the given query."
  const DestinationRequired := "destination_id is required"
  const NotInList := "Destination not found in this list"

  function FavoriteKey(f: Favorite): (nat, nat)
  {
    (f.user, f.destination)
  }

  function ItemKey(it: ListItem): (nat, nat)
  {
    (it.listId, it.destination)
  }

  function ListId(l: FavoriteList): nat
  {
    l.id
  }

  function OwnerAndName(l: FavoriteList): (nat, string)
  {
    (l.user, l.name)
  }

  /** The name a destination is shown by. */
  function NameOf(destinations: map<nat, string>, d: nat): string
  {
    if d in destinations then destinations[d] else ""
  }

  /* ---------- favourites ---------- */

  predicate IsFavorite(rows: seq<Favorite>, user: nat, d: int)
  {
    exists i :: 0 <= i < |rows| && rows[i].user == user && rows[i].destination == d
  }

  function OtherPair(user: nat, d: nat): Favorite -> bool
  {
    (f: Favorite) => !(f.user == user && f.destination == d)
  }

  /** The favourites after a toggle: the pair's row is deleted when there is
      one, and otherwise a row is created. */
  function Toggled(rows: seq<Favorite>, user: nat, d: nat, now: int): seq<Favorite>
  {
    if IsFavorite(rows, user, d) then Filter(rows, OtherPair(user, d))
    else rows + [CreateFavorite(d, user, now)]
  }

  /** A toggle flips the toggled pair and leaves every other pair as it was. */
  lemma ToggledMembership(rows: seq<Favorite>, user: nat, d: nat, now: int, u: nat, e: nat)
    ensures IsFavorite(Toggled(rows, user, d, now), u, e) <==>
      if u == user && e == d then !IsFavorite(rows, user, d) else IsFavorite(rows, u, e)
  {
    var after := Toggled(rows, user, d, now);
    if IsFavorite(rows, user, d) {
      if IsFavorite(after, u, e) {
        var i :| 0 <= i < |after| && after[i].user == u && after[i].destination == e;
        FilterMembers(rows, OtherPair(user, d), after[i]);
        var j :| 0 <= j < |rows| && rows[j] == after[i];
      }
      if !(u == user && e == d) && IsFavorite(rows, u, e) {
        var j :| 0 <= j < |rows| && rows[j].user == u && rows[j].destination == e;
        FilterMembers(rows, OtherPair(user, d), rows[j]);
        var i :| 0 <= i < |after| && after[i] == rows[j];
      }
    } else {
      assert after[|rows|] == Favorite(user, d, now);
      if IsFavorite(after, u, e) && !(u == user && e == d) {
        var i :| 0 <= i < |after| && after[i].user == u && after[i].destination == e;
        assert i < |rows| && rows[i] == after[i];
      }
      if IsFavorite(rows, u, e) {
        var j :| 0 <= j < |rows| && rows[j].user == u && rows[j].destination == e;
        assert after[j] == rows[j];
      }
    }
  }

  /** Toggling the same pair twice gives back the same set of favourites. */
  lemma ToggleTwice(rows: seq<Favorite>, user: nat, d: nat, now1: int, now2: int, u: nat, e: nat)
    ensures IsFavorite(Toggled(Toggled(rows, user, d, now1), user, d, now2), u, e) <==> IsFavorite(rows, u, e)
  {
    ToggledMembership(rows, user, d, now1, u, e);
    ToggledMembership(rows, user, d, now1, user, d);
    ToggledMembership(Toggled(rows, user, d, now1), user, d, now2, u, e);
  }

  /** A toggle keeps one favourite per user and destination. */
  lemma ToggledDistinct(rows: seq<Favorite>, user: nat, d: nat, now: int)
    requires DistinctBy(rows, FavoriteKey)
    ensures DistinctBy(Toggled(rows, user, d, now), FavoriteKey)
  {
    if IsFavorite(rows, user, d) {
      FilterDistinct(rows, OtherPair(user, d), FavoriteKey);
    } else {
      AppendDistinct(rows, CreateFavorite(d, user, now), FavoriteKey);
    }
  }

  datatype ToggleReply =
    | ToggleInvalid(destinationIdError: string)
    | ToggleDone(isFavorited: bool, message: string, destinationId: nat)

  /** The body of `check_favorites_status`: the rejected ids, or the map. */
  datatype StatusReply = StatusInvalid(invalidIds: set<int>) | Statuses(favoritesStatus: map<int, bool>)

  /** `check_favorites_status`: after validation, one entry per requested
      id, true exactly when the requester has favourited it. */
  function CheckStatus(rows: seq<Favorite>, existing: set<nat>, user: nat, ids: seq<int>): (r: StatusReply)
    ensures r.StatusInvalid? <==> ValidateDestinationIds(ids, existing).Some?
    ensures r.StatusInvalid? ==> r.invalidIds == ValidateDestinationIds(ids, existing).value
    ensures r.Statuses? ==> forall id :: id in r.favoritesStatus <==> id in ids
    ensures r.Statuses? ==> forall id :: id in r.favoritesStatus ==> (r.favoritesStatus[id] <==> IsFavorite(rows, user, id))
  {
    match ValidateDestinationIds(ids, existing)
    case Some(unknown) => StatusInvalid(unknown)
    case None =>
      var favorited := set i | 0 <= i < |rows| && rows[i].user == user && rows[i].destination as int in ids :: rows[i].destination as int;
      assert forall id :: id in ids ==> (id in favorited <==> IsFavorite(rows, user, id));
      Statuses(map id | id in ids :: id in favorited)
  }

  /* ---------- favourite lists ---------- */

  /** The position of the list with this id owned by this user. */
  function FindList(lists: seq<FavoriteList>, listId: nat, user: nat): (r: Option<nat>)
    ensures r.Some? ==> r.value < |lists| && lists[r.value].id == listId && lists[r.value].user == user
    ensures r.None? ==> forall i :: 0 <= i < |lists| ==> !(lists[i].id == listId && lists[i].user == user)
  {
    if lists == [] then None
    else if lists[0].id == listId && lists[0].user == user then Some(0)
    else
      var r := FindList(lists[1..], listId, user);
      if r.Some? then Some(r.value + 1) else None
  }

  /** The requester owns a list with this id exactly when it is found. */
  lemma FindListFinds(lists: seq<FavoriteList>, listId: nat, user: nat)
    ensures FindList(lists, listId, user).Some? <==>
      exists i :: 0 <= i < |lists| && lists[i].id == listId && lists[i].user == user
  {
    var k := FindList(lists, listId, user);
    if k.Some? {
      assert lists[k.value].id == listId && lists[k.value].user == user;
    }
  }

  predicate InList(items: seq<ListItem>, listId: nat, d: int)
  {
    exists i :: 0 <= i < |items| && items[i].listId == listId && items[i].destination == d
  }

  function OtherItem(listId: nat, d: nat): ListItem -> bool
  {
    (it: ListItem) => !(it.listId == listId && it.destination == d)
  }

  /** The lists other than this one, and the items outside it. */
  function OtherList(listId: nat): FavoriteList -> bool
  {
    (l: FavoriteList) => l.id != listId
  }

  function OutsideList(listId: nat): ListItem -> bool
  {
    (it: ListItem) => it.listId != listId
  }

  datatype ListReply =
    | Missing(detail: string)
    | Refused(error: string)
    | Answer(status: nat, success: bool, message: string)

  /** `add_to_favorite_list`: the reply and the new item table. */
  function AddOutcome(lists: seq<FavoriteList>, items: seq<ListItem>, destinations: map<nat, string>,
                      user: nat, listId: nat, destinationId: Option<int>, notes: string, now: int): (ListReply, seq<ListItem>)
  {
    var k := FindList(lists, listId, user);
    if k.None? then (Missing(ListNotFound), items)
    else if destinationId.None? || destinationId.value == 0 then (Refused(DestinationRequired), items)
    else if !(destinationId.value >= 0 && destinationId.value in destinations) then (Missing(DestinationMissing), items)
    else
      var d := destinationId.value as nat;
      var list := lists[k.value];
      if InList(items, listId, d) then
        (Answer(400, false, destinations[d] + " is already in " + list.name), items)
      else
        (Answer(200, true, "Added " + destinations[d] + " to " + list.name), items + [ListItem(listId, d, notes, now)])
  }

  /** `remove_from_favorite_list`: the reply and the new item table. */
  function RemoveOutcome(lists: seq<FavoriteList>, items: seq<ListItem>, destinations: map<nat, string>,
                         user: nat, listId: nat, d: nat): (ListReply, seq<ListItem>)
  {
    var k := FindList(lists, listId, user);
    if k.None? then (Missing(ListNotFound), items)
    else if !InList(items, listId, d) then (Answer(404, false, NotInList), items)
    else (Answer(200, true, "Removed " + NameOf(destinations, d) + " from " + lists[k.value].name),
          Filter(items, OtherItem(listId, d)))
  }

  /** Adding: a list the requester does not own is not found; a missing id
      is refused before any change; an item already in the list is refused
      and its notes are kept; otherwise exactly the new item, with the given
      notes, is added. */
  lemma AddOutcomeMeaning(lists: seq<FavoriteList>, items: seq<ListItem>, destinations: map<nat, string>,
                          user: nat, listId: nat, destinationId: Option<int>, notes: string, now: int)
    ensures var (reply, after) := AddOutcome(lists, items, destinations, user, listId, destinationId, notes, now);
      && (after != items <==> reply.Answer? && reply.success)
      && (reply.Answer? && reply.success ==>
            (exists i :: 0 <= i < |lists| && lists[i].id == listId && lists[i].user == user)
            && destinationId.Some? && destinationId.value >= 0
            && !InList(items, listId, destinationId.value)
            && after == items + [ListItem(listId, destinationId.value as nat, notes, now)])
      && ((forall i :: 0 <= i < |lists| ==> !(lists[i].id == listId && lists[i].user == user)) ==>
            reply == Missing(ListNotFound))
      && (reply == Refused(DestinationRequired) <==>
            FindList(lists, listId, user).Some? && (destinationId.None? || destinationId.value == 0))
      && (reply.Answer? && !reply.success ==> reply.status == 400 && destinationId.Some? && InList(items, listId, destinationId.value))
  {
    var k := FindList(lists, listId, user);
    if k.Some? {
      assert lists[k.value].id == listId && lists[k.value].user == user;
    }
  }

  /** Removing: a list the requester does not own is not found; an item
      not in the list is 404; otherwise exactly that item goes. */
  lemma RemoveOutcomeMeaning(lists: seq<FavoriteList>, items: seq<ListItem>, destinations: map<nat, string>,
                             user: nat, listId: nat, d: nat, it: ListItem)
    ensures var (reply, after) := RemoveOutcome(lists, items, destinations, user, listId, d);
      && (reply.Answer? && reply.success ==>
            (exists i :: 0 <= i < |lists| && lists[i].id == listId && lists[i].user == user)
            && InList(items, listId, d)
            && (it in after <==> it in items && !(it.listId == listId && it.destination == d)))
      && (!(reply.Answer? && reply.success) ==> after == items)
      && (FindList(lists, listId, user).Some? && !InList(items, listId, d) ==> reply == Answer(404, false, NotInList))
  {
    var k := FindList(lists, listId, user);
    if k.Some? {
      assert lists[k.value].id == listId && lists[k.value].user == user;
    }
    FilterMembers(items, OtherItem(listId, d), it);
  }

  /** Removing what was just added gives back the item table. */
  lemma AddThenRemove(lists: seq<FavoriteList>, items: seq<ListItem>, destinations: map<nat, string>,
                      user: nat, listId: nat, d: nat, notes: string, now: int)
    requires AddOutcome(lists, items, destinations, user, listId, Some(d), notes, now).0.Answer?
    requires AddOutcome(lists, items, destinations, user, listId, Some(d), notes, now).0.success
    ensures RemoveOutcome(lists, AddOutcome(lists, items, destinations, user, listId, Some(d), notes, now).1,
                          destinations, user, listId, d).1 == items
  {
    AddOutcomeMeaning(lists, items, destinations, user, listId, Some(d), notes, now);
    assert FindList(lists, listId, user).Some?;
    RemoveAppended(items, ListItem(listId, d, notes, now));
  }

  /** Removing an item that was appended to a list not holding it leaves the
      table as it was before. */
  lemma RemoveAppended(items: seq<ListItem>, added: ListItem)
    requires !InList(items, added.listId, added.destination)
    ensures InList(items + [added], added.listId, added.destination)
    ensures Filter(items + [added], OtherItem(added.listId, added.destination)) == items
  {
    var keep := OtherItem(added.listId, added.destination);
    assert (items + [added])[|items|] == added;
    FilterAppend(items, [added], keep);
    FilterAll(items, keep);
    assert Filter([added], keep) == [];
  }

  /** Deleting lists keeps their unique constraints and the key bound. */
  lemma KeptListsValid(lists: seq<FavoriteList>, keep: FavoriteList -> bool, bound: nat)
    requires DistinctBy(lists, ListId) && DistinctBy(lists, OwnerAndName)
    requires forall i :: 0 <= i < |lists| ==> lists[i].id < bound
    ensures var kept := Filter(lists, keep);
      DistinctBy(kept, ListId) && DistinctBy(kept, OwnerAndName)
      && forall i :: 0 <= i < |kept| ==> kept[i].id < bound
  {
    FilterDistinct(lists, keep, ListId);
    FilterDistinct(lists, keep, OwnerAndName);
    var kept := Filter(lists, keep);
    forall i | 0 <= i < |kept|
      ensures kept[i].id < bound
    {
      FilterMembers(lists, keep, kept[i]);
    }
  }

  /** Deleting items keeps their unique constraint and their destinations. */
  lemma KeptItemsValid(items: seq<ListItem>, keep: ListItem -> bool, destinations: map<nat, string>)
    requires DistinctBy(items, ItemKey)
    requires forall i :: 0 <= i < |items| ==> items[i].destination in destinations
    ensures var kept := Filter(items, keep);
      DistinctBy(kept, ItemKey)
      && forall i :: 0 <= i < |kept| ==> kept[i].destination in destinations
  {
    FilterDistinct(items, keep, ItemKey);
    var kept := Filter(items, keep);
    forall i | 0 <= i < |kept|
      ensures kept[i].destination in destinations
    {
      FilterMembers(items, keep, kept[i]);
    }
  }

  /** An addition keeps one item per list and destination. */
  lemma AddOutcomeDistinct(lists: seq<FavoriteList>, items: seq<ListItem>, destinations: map<nat, string>,
                           user: nat, listId: nat, destinationId: Option<int>, notes: string, now: int)
    requires DistinctBy(items, ItemKey)
    ensures DistinctBy(AddOutcome(lists, items, destinations, user, listId, destinationId, notes, now).1, ItemKey)
  {
    var (reply, after) := AddOutcome(lists, items, destinations, user, listId, destinationId, notes, now);
    if after != items {
      var d := destinationId.value as nat;
      AppendDistinct(items, ListItem(listId, d, notes, now), ItemKey);
    }
  }

  /** `FavoriteListView.get_queryset` and `UserFavoriteListsView.get_queryset`. */
  function UserFavorites(rows: seq<Favorite>, user: nat): seq<Favorite>
  {
    Filter(rows, (f: Favorite) => f.user == user)
  }

  function UserLists(lists: seq<FavoriteList>, user: nat): seq<FavoriteList>
  {
    Filter(lists, (l: FavoriteList) => l.user == user)
  }

  /** Both listings hold exactly the requester's rows. */
  lemma ListingsScoped(rows: seq<Favorite>, lists: seq<FavoriteList>, user: nat, f: Favorite, l: FavoriteList)
    ensures f in UserFavorites(rows, user) <==> f in rows && f.user == user
    ensures l in UserLists(lists, user) <==> l in lists && l.user == user
  {
    FilterMembers(rows, (f: Favorite) => f.user == user, f);
    FilterMembers(lists, (l: FavoriteList) => l.user == user, l);
  }

  class Store {
    var destinations: map<nat, string>
    var favorites: seq<Favorite>
    var lists: seq<FavoriteList>
    var items: seq<ListItem>
    var nextListId: nat

    /** The unique constraints of the three tables, list keys below the
        next key, and every row pointing at a destination that exists. */
    predicate Valid()
      reads this
    {
      && DistinctBy(favorites, FavoriteKey)
      && DistinctBy(items, ItemKey)
      && DistinctBy(lists, ListId)
      && DistinctBy(lists, OwnerAndName)
      && (forall i :: 0 <= i < |lists| ==> lists[i].id < nextListId)
      && (forall i :: 0 <= i < |favorites| ==> favorites[i].destination in destinations)
      && (forall i :: 0 <= i < |items| ==> items[i].destination in destinations)
    }

    constructor (destinations: map<nat, string>)
      ensures Valid() && this.destinations == destinations
      ensures favorites == [] && lists == [] && items == [] && nextListId == 1
    {
      this.destinations := destinations;
      favorites := [];
      lists := [];
      items := [];
      nextListId := 1;
    }

    /** `toggle_favorite`. */
    method Toggle(user: nat, destinationId: Option<int>, now: int) returns (reply: ToggleReply)
      requires Valid()
      modifies this
      ensures Valid()
      ensures ValidateDestinationId(destinationId, destinations.Keys).Some? ==>
        reply == ToggleInvalid(ValidateDestinationId(destinationId, destinations.Keys).value) && favorites == old(favorites)
      ensures ValidateDestinationId(destinationId, destinations.Keys).None? ==>
        var d := destinationId.value as nat;
        favorites == Toggled(old(favorites), user, d, now)
        && reply.ToggleDone? && reply.destinationId == d
        && reply.isFavorited == IsFavorite(favorites, user, d)
        && reply.message == (if reply.isFavorited then "Added " else "Removed ") + destinations[d]
                            + (if reply.isFavorited then " to favorites" else " from favorites")
      ensures destinations == old(destinations) && lists == old(lists) && items == old(items) && nextListId == old(nextListId)
    {
      var invalid := ValidateDestinationId(destinationId, destinations.Keys);
      if invalid.Some? {
        return ToggleInvalid(invalid.value);
      }
      var d := destinationId.value as nat;
      var name := destinations[d];
      ToggledDistinct(favorites, user, d, now);
      ToggledMembership(favorites, user, d, now, user, d);
      if IsFavorite(favorites, user, d) {
        favorites := Filter(favorites, OtherPair(user, d));
        reply := ToggleDone(false, "Removed " + name + " from favorites", d);
      } else {
        favorites := favorites + [CreateFavorite(d, user, now)];
        reply := ToggleDone(true, "Added " + name + " to favorites", d);
      }
      forall i | 0 <= i < |favorites|
        ensures favorites[i].destination in destinations
      {
        if i < |old(favorites)| || reply.isFavorited == false {
          assert favorites[i] in old(favorites) by {
            if !reply.isFavorited {
              FilterMembers(old(favorites), OtherPair(user, d), favorites[i]);
            }
          }
        }
      }
    }

    /** `add_to_favorite_list`. */
    method AddToList(user: nat, listId: nat, destinationId: Option<int>, notes: string, now: int) returns (reply: ListReply)
      requires Valid()
      modifies this
      ensures Valid()
      ensures (reply, items) == AddOutcome(old(lists), old(items), destinations, user, listId, destinationId, notes, now)
      ensures destinations == old(destinations) && favorites == old(favorites) && lists == old(lists) && nextListId == old(nextListId)
    {
      var k := FindList(lists, listId, user);
      if k.None? {
        return Missing(ListNotFound);
      }
      if destinationId.None? || destinationId.value == 0 {
        return Refused(DestinationRequired);
      }
      if !(destinationId.value >= 0 && destinationId.value in destinations) {
        return Missing(DestinationMissing);
      }
      var d := destinationId.value as nat;
      var list := lists[k.value];
      if InList(items, listId, d) {
        return Answer(400, false, destinations[d] + " is already in " + list.name);
      }
      AddOutcomeDistinct(lists, items, destinations, user, listId, destinationId, notes, now);
      items := items + [ListItem(listId, d, notes, now)];
      reply := Answer(200, true, "Added " + destinations[d] + " to " + list.name);
    }

    /** `remove_from_favorite_list`. */
    method RemoveFromList(user: nat, listId: nat, d: nat) returns (reply: ListReply)
      requires Valid()
      modifies this
      ensures Valid()
      ensures (reply, items) == RemoveOutcome(old(lists), old(items), destinations, user, listId, d)
      ensures destinations == old(destinations) && favorites == old(favorites) && lists == old(lists) && nextListId == old(nextListId)
    {
      var k := FindList(lists, listId, user);
      if k.None? {
        return Missing(ListNotFound);
      }
      if !InList(items, listId, d) {
        return Answer(404, false, NotInList);
      }
      var name := NameOf(destinations, d);
      FilterDistinct(items, OtherItem(listId, d), ItemKey);
      var kept := Filter(items, OtherItem(listId, d));
      forall i | 0 <= i < |kept|
        ensures kept[i].destination in destinations
      {
        FilterMembers(items, OtherItem(listId, d), kept[i]);
      }
      items := kept;
      reply := Answer(200, true, "Removed " + name + " from " + lists[k.value].name);
    }

    /** `UserFavoriteListsView.create`: the new list belongs to the
      requester. A name the requester already uses breaks the unique
      constraint and nothing is written. */
    method CreateFavoriteList(user: nat, name: string, description: string, isPublic: bool) returns (created: Option<FavoriteList>)
      requires Valid()
      modifies this
      ensures Valid()
      ensures (exists i :: 0 <= i < |old(lists)| && old(lists)[i].user == user && old(lists)[i].name == name) ==>
        created.None? && lists == old(lists) && nextListId == old(nextListId)
      ensures (forall i :: 0 <= i < |old(lists)| ==> !(old(lists)[i].user == user && old(lists)[i].name == name)) ==>
        created.Some?
      ensures created.Some? ==>
        created.value == CreateList(old(nextListId), name, description, isPublic, user)
        && lists == old(lists) + [created.value] && nextListId == old(nextListId) + 1
      ensures created.None? ==> lists == old(lists) && nextListId == old(nextListId)
      ensures destinations == old(destinations) && favorites == old(favorites) && items == old(items)
    {
      var i := 0;
      while i < |lists|
        invariant 0 <= i <= |lists|
        invariant forall j :: 0 <= j < i ==> !(lists[j].user == user && lists[j].name == name)
      {
        if lists[i].user == user && lists[i].name == name {
          return None;
        }
        i := i + 1;
      }
      var list := CreateList(nextListId, name, description, isPublic, user);
      AppendDistinct(lists, list, ListId);
      AppendDistinct(lists, list, OwnerAndName);
      lists := lists + [list];
      nextListId := nextListId + 1;
      created := Some(list);
    }

    /** `FavoriteListDetailView.destroy`: only the owner's list is found;
      deleting it deletes its items too. */
    method DestroyList(user: nat, listId: nat) returns (found: bool)
      requires Valid()
      modifies this
      ensures Valid()
      ensures found <==> FindList(old(lists), listId, user).Some?
      ensures found ==> lists == Filter(old(lists), OtherList(listId))
      ensures found ==> items == Filter(old(items), OutsideList(listId))
      ensures !found ==> lists == old(lists) && items == old(items)
      ensures destinations == old(destinations) && favorites == old(favorites) && nextListId == old(nextListId)
    {
      var k := FindList(lists, listId, user);
      if k.None? {
        return false;
      }
      found := true;
      var otherLists := OtherList(listId);
      var otherItems := OutsideList(listId);
      KeptListsValid(lists, otherLists, nextListId);
      KeptItemsValid(items, otherItems, destinations);
      var keptLists := Filter(lists, otherLists);
      var keptItems := Filter(items, otherItems);
      lists := keptLists;
      items := keptItems;
    }
  }
}
