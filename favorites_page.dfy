/** The favourites page: the favourite destinations, the named favourite
    lists, and the list-creation form. */
module FavoritesPage {
  import opened Base
  import opened Lists

  datatype FavoriteDestination = FavoriteDestination(id: nat, name: string)

  /** A list card: its id, name, description, the destination count the
      server reports and the items it sent along. */
  datatype FavoriteList = FavoriteList(
    id: nat, name: string, description: string, destinationsCount: int,
    destinations: seq<FavoriteDestination>)

  datatype NewListData = NewListData(name: string, description: string)

  const EmptyForm := NewListData("", "")
  const LoadFailed := "Failed to load favorites"
  const PreviewSize := 3

  /** `response.favorites || []`. */
  datatype FavoritesResponse = FavoritesResponse(success: bool, favorites: Option<seq<FavoriteDestination>>)

  datatype ToggleResponse = ToggleResponse(success: bool, isFavorited: bool)

  function WithoutId(favorites: seq<FavoriteDestination>, id: nat): seq<FavoriteDestination>
  {
    Filter(favorites, (f: FavoriteDestination) => f.id != id)
  }

  function WithoutList(lists: seq<FavoriteList>, id: nat): seq<FavoriteList>
  {
    Filter(lists, (l: FavoriteList) => l.id != id)
  }

  /** Removing by id drops exactly the entries carrying that id, keeps the
      others in their order, and changes nothing when no entry has it. */
  lemma WithoutIdExactly(favorites: seq<FavoriteDestination>, id: nat, f: FavoriteDestination)
    ensures f in WithoutId(favorites, id) <==> f in favorites && f.id != id
    ensures forall t :: WithoutId(favorites + t, id) == WithoutId(favorites, id) + WithoutId(t, id)
    ensures (forall i :: 0 <= i < |favorites| ==> favorites[i].id != id) ==> WithoutId(favorites, id) == favorites
  {
    var p := (x: FavoriteDestination) => x.id != id;
    FilterMembers(favorites, p, f);
    forall t ensures WithoutId(favorites + t, id) == WithoutId(favorites, id) + WithoutId(t, id) {
      FilterAppend(favorites, t, p);
    }
    if forall i :: 0 <= i < |favorites| ==> favorites[i].id != id {
      FilterAll(favorites, p);
    }
  }

  lemma WithoutListExactly(lists: seq<FavoriteList>, id: nat, l: FavoriteList)
    ensures l in WithoutList(lists, id) <==> l in lists && l.id != id
  {
    FilterMembers(lists, (x: FavoriteList) => x.id != id, l);
  }

  /** The avatars a list card shows: at most three, in list order, and only
      when the list has items. */
  function PreviewItems(l: FavoriteList): (r: seq<FavoriteDestination>)
    ensures |r| == if |l.destinations| < PreviewSize then |l.destinations| else PreviewSize
    ensures r == l.destinations[..|r|]
  {
    Take(l.destinations, PreviewSize)
  }

  /** The "+n" badge, inside the preview row: the reported count beyond
      three. */
  function OverflowBadge(l: FavoriteList): (r: Option<int>)
    ensures r.Some? <==> l.destinations != [] && l.destinationsCount > PreviewSize
    ensures r.Some? ==> r.value == l.destinationsCount - PreviewSize && r.value > 0
  {
    if l.destinations != [] && l.destinationsCount > PreviewSize then Some(l.destinationsCount - PreviewSize) else None
  }

  class Page {
    var favorites: seq<FavoriteDestination>
    var favoriteLists: seq<FavoriteList>
    var loading: bool
    var error: string
    var showCreateList: bool
    var newListData: NewListData

    constructor ()
      ensures favorites == [] && favoriteLists == [] && loading && error == ""
      ensures !showCreateList && newListData == EmptyForm
    {
      favorites := [];
      favoriteLists := [];
      loading := true;
      error := "";
      showCreateList := false;
      newListData := EmptyForm;
    }

    /** `loadFavorites`: a successful answer replaces the favourites (a
      missing list reads as empty); an unsuccessful one changes nothing; a
      failed request sets the error. Loading always ends. */
    method LoadFavorites(response: Outcome<FavoritesResponse>)
      modifies this
      ensures !loading
      ensures response.Ok? && response.value.success ==>
        favorites == (if response.value.favorites.Some? then response.value.favorites.value else [])
      ensures !(response.Ok? && response.value.success) ==> favorites == old(favorites)
      ensures error == if response.Failed? then LoadFailed else old(error)
      ensures favoriteLists == old(favoriteLists) && showCreateList == old(showCreateList)
      ensures newListData == old(newListData)
    {
      loading := true;
      if response.Ok? {
        if response.value.success {
          favorites := if response.value.favorites.Some? then response.value.favorites.value else [];
        }
      } else {
        error := LoadFailed;
      }
      loading := false;
    }

    /** `loadFavoriteLists`: the answer replaces the lists; a failure is only
      logged. */
    method LoadFavoriteLists(response: Outcome<seq<FavoriteList>>)
      modifies this
      ensures favoriteLists == if response.Ok? then response.value else old(favoriteLists)
      ensures favorites == old(favorites) && loading == old(loading) && error == old(error)
      ensures showCreateList == old(showCreateList) && newListData == old(newListData)
    {
      if response.Ok? {
        favoriteLists := response.value;
      }
    }

    /** `handleRemoveFavorite`: only an answer that succeeded and reports the
      destination as no longer favourited removes it from the page. */
    method HandleRemoveFavorite(id: nat, response: Outcome<ToggleResponse>)
      modifies this
      ensures response.Ok? && response.value.success && !response.value.isFavorited ==>
        favorites == WithoutId(old(favorites), id)
      ensures !(response.Ok? && response.value.success && !response.value.isFavorited) ==>
        favorites == old(favorites)
      ensures favoriteLists == old(favoriteLists) && loading == old(loading) && error == old(error)
      ensures showCreateList == old(showCreateList) && newListData == old(newListData)
    {
      if response.Ok? && response.value.success && !response.value.isFavorited {
        favorites := WithoutId(favorites, id);
      }
    }

    method OpenCreateList()
      modifies this
      ensures showCreateList
      ensures favorites == old(favorites) && favoriteLists == old(favoriteLists) && newListData == old(newListData)
    {
      showCreateList := true;
    }

    method EditNewList(data: NewListData)
      modifies this
      ensures newListData == data
      ensures favorites == old(favorites) && favoriteLists == old(favoriteLists) && showCreateList == old(showCreateList)
    {
      newListData := data;
    }

    /** `handleCreateList`: sends the form; the created list goes to the end,
      the form is emptied and closed. A failure changes nothing. */
    method HandleCreateList(response: Outcome<FavoriteList>) returns (sent: NewListData)
      modifies this
      ensures sent == old(newListData)
      ensures response.Ok? ==>
        favoriteLists == old(favoriteLists) + [response.value] && newListData == EmptyForm && !showCreateList
      ensures response.Failed? ==>
        favoriteLists == old(favoriteLists) && newListData == old(newListData) && showCreateList == old(showCreateList)
      ensures favorites == old(favorites) && loading == old(loading) && error == old(error)
    {
      sent := newListData;
      if response.Ok? {
        favoriteLists := favoriteLists + [response.value];
        newListData := EmptyForm;
        showCreateList := false;
      }
    }

    /** `handleDeleteList`: only after confirmation and a successful request
      is the list with that id dropped. */
    method HandleDeleteList(id: nat, confirmed: bool, response: Outcome<()>) returns (requested: bool)
      modifies this
      ensures requested == confirmed
      ensures confirmed && response.Ok? ==> favoriteLists == WithoutList(old(favoriteLists), id)
      ensures !(confirmed && response.Ok?) ==> favoriteLists == old(favoriteLists)
      ensures favorites == old(favorites) && loading == old(loading) && error == old(error)
      ensures showCreateList == old(showCreateList) && newListData == old(newListData)
    {
      requested := confirmed;
      if confirmed && response.Ok? {
        favoriteLists := WithoutList(favoriteLists, id);
      }
    }
  }
}
