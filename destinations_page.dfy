/** The destinations browser: the fetched catalogue, the search and filter
    panel, the sort selector, pagination with its five-button window, and the
    set of favourite destination ids. Prices are cents, ratings hundredths,
    instants milliseconds since the epoch. */
module DestinationsPage {
  import opened Base
  import opened Text
  import opened Js
  import opened Lists
  import opened Sorting

  /** A destination as the list endpoint delivers it; a text field may be
      missing (`None`). */
  datatype ClientDestination = ClientDestination(
    id: nat, name: Option<string>, city: Option<string>, country: Option<string>,
    shortDescription: Option<string>, categoryName: Option<string>, difficulty: Option<string>,
    pricePerPerson: Numeric, averageRating: Numeric, durationDays: Numeric,
    totalReviews: Numeric, createdAt: Option<int>)

  /** `safeStringMatch`: a missing or empty value never matches; otherwise a
      substring test ignoring case. */
  predicate SafeStringMatch(value: Option<string>, term: string)
  {
    value.Some? && value.value != "" && ContainsIgnoreCase(value.value, term)
  }

  lemma SafeStringMatchMeaning(value: Option<string>, term: string)
    ensures value.None? || value.value == "" ==> !SafeStringMatch(value, term)
    ensures value.Some? && value.value != "" ==>
      (SafeStringMatch(value, term) <==> Contains(Lower(value.value), Lower(term)))
    ensures value.Some? && value.value != "" ==> SafeStringMatch(value, "")
  {
    if value.Some? {
      ContainsEmpty(Lower(value.value));
    }
  }

  /** The price options of the filter panel: any price, an inclusive range,
      or 3000 and above. */
  datatype PriceRange = AnyPrice | Between(min: int, max: int) | From(min: int)

  const PriceOptions: seq<PriceRange> :=
    [AnyPrice, Between(0, 100000), Between(100000, 200000), Between(200000, 300000), From(300000)]

  /** The filter settings. `minRating` is `None` for "Any Rating"; `duration`
      is the raw text of the number input. */
  datatype Filters = Filters(
    searchTerm: string, category: string, priceRange: PriceRange,
    minRating: Option<int>, difficulty: string, duration: string)

  const NoFilters := Filters("", "all", AnyPrice, None, "", "")

  predicate MatchesSearch(d: ClientDestination, term: string)
  {
    SafeStringMatch(d.name, term) || SafeStringMatch(d.city, term) || SafeStringMatch(d.country, term)
    || SafeStringMatch(d.shortDescription, term) || SafeStringMatch(d.categoryName, term)
  }

  /** `parseFloat(dest.price_per_person || 0)`. */
  function Price(d: ClientDestination): int
  {
    ValueOrZero(d.pricePerPerson)
  }

  predicate MatchesPrice(d: ClientDestination, r: PriceRange)
  {
    match r
    case AnyPrice => true
    case Between(lo, hi) => lo <= Price(d) <= hi
    case From(lo) => Price(d) >= lo
  }

  predicate MatchesRating(d: ClientDestination, min: int)
  {
    ValueOrZero(d.averageRating) >= min
  }

  /** `Math.abs(parseInt(duration_days || 0) - parseInt(duration)) <= 1`; an
      unparsable filter value is `NaN`, and no comparison with it holds. */
  predicate MatchesDuration(d: ClientDestination, duration: string)
  {
    var wanted := ParseInt(duration);
    var days := ValueOrZero(d.durationDays);
    wanted.Some? && -1 <= days - wanted.value <= 1
  }

  /** Whether the k-th filter of the chain is switched on. */
  predicate Active(f: Filters, k: nat)
  {
    if k == 0 then f.searchTerm != ""
    else if k == 1 then f.category != "" && f.category != "all"
    else if k == 2 then !f.priceRange.AnyPrice?
    else if k == 3 then f.minRating.Some?
    else if k == 4 then f.difficulty != ""
    else if k == 5 then f.duration != ""
    else false
  }

  function SearchFilter(term: string): ClientDestination -> bool
  {
    (d: ClientDestination) => MatchesSearch(d, term)
  }

  function CategoryFilter(category: string): ClientDestination -> bool
  {
    (d: ClientDestination) => SafeStringMatch(d.categoryName, category)
  }

  function PriceFilter(r: PriceRange): ClientDestination -> bool
  {
    (d: ClientDestination) => MatchesPrice(d, r)
  }

  function RatingFilter(min: Option<int>): ClientDestination -> bool
  {
    (d: ClientDestination) => min.Some? && MatchesRating(d, min.value)
  }

  function DifficultyFilter(level: string): ClientDestination -> bool
  {
    (d: ClientDestination) => SafeStringMatch(d.difficulty, level)
  }

  function DurationFilter(duration: string): ClientDestination -> bool
  {
    (d: ClientDestination) => MatchesDuration(d, duration)
  }

  /** The test of the k-th filter. */
  function Test(f: Filters, k: nat): ClientDestination -> bool
  {
    if k == 0 then SearchFilter(f.searchTerm)
    else if k == 1 then CategoryFilter(f.category)
    else if k == 2 then PriceFilter(f.priceRange)
    else if k == 3 then RatingFilter(f.minRating)
    else if k == 4 then DifficultyFilter(f.difficulty)
    else DurationFilter(f.duration)
  }

  /** The k-th filter of the chain lets everything through while it is off. */
  predicate Gate(d: ClientDestination, f: Filters, k: nat)
  {
    !Active(f, k) || Test(f, k)(d)
  }

  /** Passing the first `n` filters of the chain. */
  predicate PassesFirst(d: ClientDestination, f: Filters, n: nat)
  {
    (n > 0 ==> Gate(d, f, 0)) && (n > 1 ==> Gate(d, f, 1)) && (n > 2 ==> Gate(d, f, 2))
    && (n > 3 ==> Gate(d, f, 3)) && (n > 4 ==> Gate(d, f, 4)) && (n > 5 ==> Gate(d, f, 5))
  }

  function Stage(f: Filters, n: nat): ClientDestination -> bool
  {
    (d: ClientDestination) => PassesFirst(d, f, n)
  }

  predicate Passes(d: ClientDestination, f: Filters)
  {
    PassesFirst(d, f, 6)
  }

  /** A destination passes iff every active filter accepts it. */
  lemma PassesMeaning(d: ClientDestination, f: Filters)
    ensures Passes(d, f) <==>
      (f.searchTerm == "" || MatchesSearch(d, f.searchTerm))
      && (f.category == "" || f.category == "all" || SafeStringMatch(d.categoryName, f.category))
      && MatchesPrice(d, f.priceRange)
      && (f.minRating.None? || MatchesRating(d, f.minRating.value))
      && (f.difficulty == "" || SafeStringMatch(d.difficulty, f.difficulty))
      && (f.duration == "" || MatchesDuration(d, f.duration))
  {
  }

  /** With every filter at its default, nothing is filtered out. */
  lemma NoFiltersPassAll(d: ClientDestination)
    ensures Passes(d, NoFilters)
  {
  }

  /** A price on a boundary lies in both neighbouring ranges. */
  lemma BoundaryPriceInBothRanges(d: ClientDestination)
    requires Price(d) == 100000
    ensures MatchesPrice(d, PriceOptions[1]) && MatchesPrice(d, PriceOptions[2])
  {
  }

  /** The sort keys: `average_rating`, `duration_days`, `created_at` and
      `total_reviews`, each 0 when missing. */
  function Rating(d: ClientDestination): int
  {
    ValueOrZero(d.averageRating)
  }

  function DurationDays(d: ClientDestination): int
  {
    ValueOrZero(d.durationDays)
  }

  function CreatedAt(d: ClientDestination): int
  {
    if d.createdAt.Some? then d.createdAt.value else 0
  }

  function Reviews(d: ClientDestination): int
  {
    ValueOrZero(d.totalReviews)
  }

  /** The sort selector: each option compares one key, ascending or
      descending; 'popularity' and any other value sort by review count,
      most reviewed first. */
  function SortDestinations(s: seq<ClientDestination>, sortBy: string): seq<ClientDestination>
  {
    if sortBy == "price-low" then SortBy(s, Price, false)
    else if sortBy == "price-high" then SortBy(s, Price, true)
    else if sortBy == "rating" then SortBy(s, Rating, true)
    else if sortBy == "duration" then SortBy(s, DurationDays, false)
    else if sortBy == "newest" then SortBy(s, CreatedAt, true)
    else SortBy(s, Reviews, true)
  }

  /** Is one of the five named orders; anything else is popularity. */
  predicate NamedOrder(sortBy: string)
  {
    sortBy in {"price-low", "price-high", "rating", "duration", "newest"}
  }

  /** `filteredAndSortedDestinations`, as one filter and one sort. */
  function Visible(ds: seq<ClientDestination>, f: Filters, sortBy: string): seq<ClientDestination>
  {
    SortDestinations(Filter(ds, (d: ClientDestination) => Passes(d, f)), sortBy)
  }

  /** Every option reorders without losing or adding anything, and puts
      the destinations in the order of its key. */
  lemma SortDestinationsPermutes(s: seq<ClientDestination>, sortBy: string)
    ensures multiset(SortDestinations(s, sortBy)) == multiset(s)
    ensures sortBy == "price-low" ==> SortedBy(SortDestinations(s, sortBy), Price, false)
    ensures sortBy == "price-high" ==> SortedBy(SortDestinations(s, sortBy), Price, true)
    ensures sortBy == "rating" ==> SortedBy(SortDestinations(s, sortBy), Rating, true)
    ensures sortBy == "duration" ==> SortedBy(SortDestinations(s, sortBy), DurationDays, false)
    ensures sortBy == "newest" ==> SortedBy(SortDestinations(s, sortBy), CreatedAt, true)
    ensures !NamedOrder(sortBy) ==> SortedBy(SortDestinations(s, sortBy), Reviews, true)
  {
    if sortBy == "price-low" {
      SortByCorrect(s, Price, false);
    } else if sortBy == "price-high" {
      SortByCorrect(s, Price, true);
    } else if sortBy == "rating" {
      SortByCorrect(s, Rating, true);
    } else if sortBy == "duration" {
      SortByCorrect(s, DurationDays, false);
    } else if sortBy == "newest" {
      SortByCorrect(s, CreatedAt, true);
    } else {
      SortByCorrect(s, Reviews, true);
    }
  }

  /** The result holds exactly the fetched destinations that pass every
      active filter, each at most as often as it was fetched. */
  lemma VisibleExactly(ds: seq<ClientDestination>, f: Filters, sortBy: string, d: ClientDestination)
    ensures d in Visible(ds, f, sortBy) <==> d in ds && Passes(d, f)
    ensures multiset(Visible(ds, f, sortBy)) <= multiset(ds)
  {
    var p := (x: ClientDestination) => Passes(x, f);
    SortDestinationsPermutes(Filter(ds, p), sortBy);
    FilterMembers(ds, p, d);
    assert d in Visible(ds, f, sortBy) <==> d in multiset(Filter(ds, p));
  }

  /** The k-th step of the chain: narrow by the k-th test when it is on. */
  function Narrowed(prev: seq<ClientDestination>, f: Filters, k: nat): seq<ClientDestination>
  {
    if Active(f, k) then Filter(prev, Test(f, k)) else prev
  }

  /** The first n steps of the chain. */
  function ChainedUpTo(ds: seq<ClientDestination>, f: Filters, n: nat): seq<ClientDestination>
  {
    if n == 0 then ds else Narrowed(ChainedUpTo(ds, f, n - 1), f, n - 1)
  }

  /** The chain of conditional filters computes one filter by the
      conjunction of the gates passed so far. */
  lemma {:induction false} ChainedIsConjunction(ds: seq<ClientDestination>, f: Filters, n: nat)
    requires n <= 6
    ensures ChainedUpTo(ds, f, n) == Filter(ds, Stage(f, n))
  {
    if n == 0 {
      FilterAll(ds, Stage(f, 0));
    } else {
      var k := n - 1;
      ChainedIsConjunction(ds, f, k);
      if Active(f, k) {
        FilterFilter(ds, Stage(f, k), Test(f, k), Stage(f, n));
      } else {
        FilterExt(ds, Stage(f, n), Stage(f, k));
      }
    }
  }

  const ItemsPerPage := 12

  /** `Math.ceil(n / 12)`. */
  function TotalPages(n: nat): (r: nat)
    ensures r * ItemsPerPage >= n && (r == 0 || (r - 1) * ItemsPerPage < n)
  {
    (n + ItemsPerPage - 1) / ItemsPerPage
  }

  /** `slice((page - 1) * 12, page * 12)`; a page past the end is empty. */
  function PageItems<T>(s: seq<T>, page: nat): (r: seq<T>)
    requires page >= 1
    ensures |r| <= ItemsPerPage
    ensures page > TotalPages(|s|) ==> r == []
  {
    var start := (page - 1) * ItemsPerPage;
    if start >= |s| then []
    else if start + ItemsPerPage <= |s| then s[start..start + ItemsPerPage]
    else s[start..]
  }

  /** Every item is shown on exactly one page: item i at position i mod 12 of
      page i div 12 + 1, which is a real page. */
  lemma PagesCoverItems<T>(s: seq<T>, i: nat)
    requires i < |s|
    ensures 1 <= i / ItemsPerPage + 1 <= TotalPages(|s|)
    ensures i % ItemsPerPage < |PageItems(s, i / ItemsPerPage + 1)|
    ensures PageItems(s, i / ItemsPerPage + 1)[i % ItemsPerPage] == s[i]
  {
  }

  /** The numbered buttons: at most five consecutive page numbers. */
  function PageWindow(current: int, total: nat): (r: seq<int>)
  {
    var count := if total < 5 then total else 5;
    var first := if total <= 5 || current <= 3 then 1
                 else if current >= total - 2 then total - 4
                 else current - 2;
    seq(count, i => first + i)
  }

  lemma PageWindowShape(current: int, total: nat)
    ensures |PageWindow(current, total)| == if total < 5 then total else 5
    ensures forall i :: 0 <= i < |PageWindow(current, total)| ==> 1 <= PageWindow(current, total)[i] <= total
    ensures forall i :: 0 < i < |PageWindow(current, total)| ==> PageWindow(current, total)[i] == PageWindow(current, total)[i - 1] + 1
    ensures 1 <= current <= total ==> current in PageWindow(current, total)
  {
    var w := PageWindow(current, total);
    if 1 <= current <= total {
      var first := w[0];
      assert w[current - first] == current;
    }
  }

  /** `destinationsData.results || destinationsData || []`. */
  datatype ListResponse = Paginated(results: seq<ClientDestination>) | Bare(items: seq<ClientDestination>) | Empty

  function Rows(r: ListResponse): seq<ClientDestination>
  {
    match r
    case Paginated(results) => results
    case Bare(items) => items
    case Empty => []
  }

  datatype ToggleResponse = ToggleResponse(success: bool, isFavorited: bool)

  /** The status map as the client receives it: destination ids as decimal
      text keys. */
  datatype StatusResponse = StatusResponse(success: bool, favoritesStatus: map<string, bool>)

  /** The ids whose key maps to true, read back with `parseInt`. */
  function FavoriteIds(m: map<string, bool>): set<int>
  {
    set k | k in m.Keys && m[k] && ParseInt(k).Some? :: ParseInt(k).value
  }

  /** An id the server reports as favourited is in the set. */
  lemma FavoritedIdRestored(m: map<string, bool>, id: nat)
    requires NatToString(id) in m && m[NatToString(id)]
    ensures id in FavoriteIds(m)
  {
    ParseIntOfNat(id);
  }

  /** The dependencies of the fetch effect as one render sees them: the
      address's query string and the loading start time. */
  datatype FetchDeps = FetchDeps(search: string, startTime: Option<int>)

  class Page {
    var destinations: seq<ClientDestination>
    var loading: bool
    var loadingStartTime: Option<int>
    /** The dependencies of the render whose fetch effect ran last. */
    var ranWith: Option<FetchDeps>
    var error: Option<string>
    var filters: Filters
    var sortBy: string
    var favorites: set<int>
    var currentPage: nat

    predicate Valid()
      reads this
    {
      currentPage >= 1
    }

    constructor ()
      ensures Valid()
      ensures destinations == [] && loading && error.None? && loadingStartTime.None? && ranWith.None?
      ensures filters == NoFilters && sortBy == "popularity" && favorites == {} && currentPage == 1
    {
      destinations := [];
      loading := true;
      loadingStartTime := None;
      ranWith := None;
      error := None;
      filters := NoFilters;
      sortBy := "popularity";
      favorites := {};
      currentPage := 1;
    }

    function Results(): seq<ClientDestination>
      reads this
    {
      Visible(destinations, filters, sortBy)
    }

    function Shown(): seq<ClientDestination>
      requires Valid()
      reads this
    {
      PageItems(Results(), currentPage)
    }

    /** The filter chain as the component runs it: each active filter narrows
      the working list in turn, then the list is sorted. It computes exactly
      `Results()`. */
    method FilteredAndSorted() returns (r: seq<ClientDestination>)
      ensures r == Results()
    {
      var f := filters;
      var filtered := destinations;
      if f.searchTerm != "" {
        filtered := Filter(filtered, SearchFilter(f.searchTerm));
      }
      assert filtered == ChainedUpTo(destinations, f, 1);
      if f.category != "" && f.category != "all" {
        filtered := Filter(filtered, CategoryFilter(f.category));
      }
      assert filtered == ChainedUpTo(destinations, f, 2);
      if !f.priceRange.AnyPrice? {
        filtered := Filter(filtered, PriceFilter(f.priceRange));
      }
      assert filtered == ChainedUpTo(destinations, f, 3);
      if f.minRating.Some? {
        filtered := Filter(filtered, RatingFilter(f.minRating));
      }
      assert filtered == ChainedUpTo(destinations, f, 4);
      if f.difficulty != "" {
        filtered := Filter(filtered, DifficultyFilter(f.difficulty));
      }
      assert filtered == ChainedUpTo(destinations, f, 5);
      if f.duration != "" {
        filtered := Filter(filtered, DurationFilter(f.duration));
      }
      assert filtered == ChainedUpTo(destinations, f, 6);
      ChainedIsConjunction(destinations, f, 6);
      FilterExt(destinations, Stage(f, 6), (d: ClientDestination) => Passes(d, f));
      r := SortDestinations(filtered, sortBy);
    }

    /** The effect as written depends on `[location.search, loadingStartTime]`:
      React runs it again whenever either differs from what its last run saw. */
    predicate FetchDueAsWritten(search: string)
      reads this
    {
      ranWith != Some(FetchDeps(search, loadingStartTime))
    }

    /** The effect as intended runs once per query string. */
    predicate FetchDue(search: string)
      reads this
    {
      ranWith.None? || ranWith.value.search != search
    }

    /** The data fetch: it records the start time, then the list (paginated
      or bare) replaces the catalogue, or the error message is kept; a
      `search` query parameter becomes the search term without moving to
      page 1. The minimum spinner time is a timer and not modelled: loading
      simply ends. Having run, the effect is not due again for the same query
      string; as written it is, because it moved its own start time. */
    method FetchData(response: Outcome<ListResponse>, search: string, urlSearch: string, now: int)
      requires Valid()
      modifies this
      ensures Valid() && !loading
      ensures loadingStartTime == Some(now) && ranWith == Some(FetchDeps(search, old(loadingStartTime)))
      ensures !FetchDue(search)
      ensures old(loadingStartTime) != Some(now) ==> FetchDueAsWritten(search)
      ensures response.Ok? ==> destinations == Rows(response.value) && error == old(error)
      ensures response.Failed? ==> destinations == old(destinations) && error == Some(response.message)
      ensures filters == if urlSearch != "" then old(filters).(searchTerm := urlSearch) else old(filters)
      ensures currentPage == old(currentPage) && sortBy == old(sortBy) && favorites == old(favorites)
    {
      ranWith := Some(FetchDeps(search, loadingStartTime));
      loadingStartTime := Some(now);
      loading := true;
      if response.Ok? {
        destinations := Rows(response.value);
      } else {
        error := Some(response.message);
      }
      loading := false;
      if urlSearch != "" {
        filters := filters.(searchTerm := urlSearch);
      }
    }

    /** As written: after a fetch the user types a term; the effect is due
      again because its own run moved `loadingStartTime`, and its next run
      puts the address's `search` back in place of the typed term. */
    method RefetchAfterTypingAsWritten(first: Outcome<ListResponse>, again: Outcome<ListResponse>,
                                       search: string, urlSearch: string, t0: int, t1: int, term: string)
      returns (due: bool)
      requires Valid() && loadingStartTime != Some(t0) && urlSearch != ""
      modifies this
      ensures due && filters.searchTerm == urlSearch
    {
      FetchData(first, search, urlSearch, t0);
      HandleSearchChange(term);
      due := FetchDueAsWritten(search);
      FetchData(again, search, urlSearch, t1);
    }

    /** As intended: after a fetch the user types a term; the effect is not
      due until the query string changes, so the typed term stays. */
    method TypingAfterFetch(response: Outcome<ListResponse>, search: string, urlSearch: string, now: int,
                            term: string)
      returns (due: bool)
      requires Valid()
      modifies this
      ensures !due && filters.searchTerm == term && currentPage == 1
    {
      FetchData(response, search, urlSearch, now);
      HandleSearchChange(term);
      due := FetchDue(search);
    }

    /** Typing in the search box, and picking a category, go back to page 1. */
    method HandleSearchChange(term: string)
      modifies this
      ensures Valid() && currentPage == 1 && filters == old(filters).(searchTerm := term)
      ensures destinations == old(destinations) && sortBy == old(sortBy) && favorites == old(favorites)
      ensures loadingStartTime == old(loadingStartTime) && ranWith == old(ranWith)
    {
      filters := filters.(searchTerm := term);
      currentPage := 1;
    }

    method HandleCategoryChange(category: string)
      modifies this
      ensures Valid() && currentPage == 1 && filters == old(filters).(category := category)
      ensures destinations == old(destinations) && sortBy == old(sortBy) && favorites == old(favorites)
    {
      filters := filters.(category := category);
      currentPage := 1;
    }

    /** The advanced filters and the sort selector change only their own
      setting; the page stays where it was. */
    method SetAdvancedFilters(priceRange: PriceRange, minRating: Option<int>, difficulty: string, duration: string)
      requires Valid()
      modifies this
      ensures Valid() && currentPage == old(currentPage)
      ensures filters == old(filters).(priceRange := priceRange, minRating := minRating,
                                       difficulty := difficulty, duration := duration)
      ensures destinations == old(destinations) && sortBy == old(sortBy) && favorites == old(favorites)
    {
      filters := filters.(priceRange := priceRange, minRating := minRating,
                          difficulty := difficulty, duration := duration);
    }

    method SetSortBy(key: string)
      requires Valid()
      modifies this
      ensures Valid() && sortBy == key
      ensures filters == old(filters) && currentPage == old(currentPage)
      ensures destinations == old(destinations) && favorites == old(favorites)
    {
      sortBy := key;
    }

    /** "Previous", enabled off the first page. */
    method PreviousPage()
      requires Valid() && currentPage != 1
      modifies this
      ensures Valid() && currentPage == old(currentPage) - 1
      ensures filters == old(filters) && sortBy == old(sortBy) && destinations == old(destinations)
    {
      currentPage := if currentPage - 1 > 1 then currentPage - 1 else 1;
    }

    /** "Next", rendered when there is more than one page and enabled off the
      last page; from a page past the end it goes to the last page. */
    method NextPage()
      requires Valid() && TotalPages(|Results()|) > 1 && currentPage != TotalPages(|Results()|)
      modifies this
      ensures Valid()
      ensures currentPage == if old(currentPage) + 1 < TotalPages(|Results()|) then old(currentPage) + 1 else TotalPages(|Results()|)
      ensures filters == old(filters) && sortBy == old(sortBy) && destinations == old(destinations)
    {
      var total := TotalPages(|Results()|);
      currentPage := if total < currentPage + 1 then total else currentPage + 1;
    }

    /** A numbered button of the window. */
    method GoToPage(n: int)
      requires Valid() && n in PageWindow(currentPage, TotalPages(|Results()|))
      modifies this
      ensures Valid() && currentPage == n
      ensures n <= TotalPages(|Results()|)
      ensures filters == old(filters) && sortBy == old(sortBy) && destinations == old(destinations)
    {
      PageWindowShape(currentPage, TotalPages(|Results()|));
      currentPage := n;
    }

    /** `clearAllFilters`: every setting back to its default, page 1. */
    method ClearAllFilters()
      modifies this
      ensures Valid() && filters == NoFilters && sortBy == "popularity" && currentPage == 1
      ensures destinations == old(destinations) && favorites == old(favorites)
    {
      filters := NoFilters;
      sortBy := "popularity";
      currentPage := 1;
    }

    /** `toggleFavorite`: signed out it only sends the visitor to the login
      page; otherwise a successful answer adds or removes exactly this id. */
    method ToggleFavorite(signedIn: bool, id: nat, response: Outcome<ToggleResponse>) returns (nav: Nav)
      modifies this
      ensures !signedIn ==> nav == Go("/login") && favorites == old(favorites)
      ensures signedIn ==> nav == Stay
      ensures signedIn && response.Ok? && response.value.success ==>
        favorites == if response.value.isFavorited then old(favorites) + {id} else old(favorites) - {id}
      ensures !(response.Ok? && response.value.success) ==> favorites == old(favorites)
      ensures destinations == old(destinations) && filters == old(filters) && currentPage == old(currentPage)
      ensures sortBy == old(sortBy)
    {
      if !signedIn {
        return Go("/login");
      }
      nav := Stay;
      if response.Ok? && response.value.success {
        if response.value.isFavorited {
          favorites := favorites + {id};
        } else {
          favorites := favorites - {id};
        }
      }
    }

    /** `loadFavoritesStatus`: asks about every loaded destination id, and a
      successful answer replaces the set; signed out or with nothing loaded it
      asks nothing. */
    method LoadFavoritesStatus(signedIn: bool, response: Outcome<StatusResponse>) returns (asked: Option<seq<nat>>)
      modifies this
      ensures asked.Some? <==> signedIn && destinations != []
      ensures asked.Some? ==> |asked.value| == |destinations|
      ensures asked.Some? ==> forall i :: 0 <= i < |destinations| ==> asked.value[i] == destinations[i].id
      ensures asked.Some? && response.Ok? && response.value.success ==>
        favorites == FavoriteIds(response.value.favoritesStatus)
      ensures !(asked.Some? && response.Ok? && response.value.success) ==> favorites == old(favorites)
      ensures destinations == old(destinations) && filters == old(filters) && currentPage == old(currentPage)
      ensures sortBy == old(sortBy)
    {
      if !signedIn || destinations == [] {
        return None;
      }
      asked := Some(seq(|destinations|, i requires 0 <= i < |destinations| reads this => destinations[i].id));
      if response.Ok? && response.value.success {
        favorites := FavoriteIds(response.value.favoritesStatus);
      }
    }
  }

  /** Toggling one id touches no other id. */
  lemma ToggleTouchesOnlyId(favorites: set<int>, id: nat, isFavorited: bool, other: int)
    requires other != id
    ensures other in (if isFavorited then favorites + {id} else favorites - {id}) <==> other in favorites
  {
  }
}
