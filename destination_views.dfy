/** The destination catalogue endpoints: the filtered list, the featured
    destinations and the quick search. Query sets are sequences of rows;
    `icontains` is an ASCII case-insensitive substring test. */
module DestinationViews {
  import opened Base
  import opened Text
  import opened Lists
  import opened Sorting
  import opened DestinationSerializers

  const FeaturedLimit := 6
  const SearchLimit := 10

  function CreatedAt(d: Destination): int
  {
    d.createdAt
  }

  /** `order_by('-created_at')`, also the model's default ordering. */
  function NewestFirst(rows: seq<Destination>): seq<Destination>
  {
    SortBy(rows, CreatedAt, true)
  }

  /** `category__name__icontains`: a row without a category never matches. */
  predicate InCategory(d: Destination, category: string)
  {
    d.categoryName.Some? && ContainsIgnoreCase(d.categoryName.value, category)
  }

  /** The `Q` disjunction over name, city, country and short description. */
  predicate Matches(d: Destination, term: string)
  {
    ContainsIgnoreCase(d.name, term) || ContainsIgnoreCase(d.city, term)
    || ContainsIgnoreCase(d.country, term) || ContainsIgnoreCase(d.shortDescription, term)
  }

  function CategoryFilter(category: string): Destination -> bool
  {
    (d: Destination) => InCategory(d, category)
  }

  function SearchFilter(term: string): Destination -> bool
  {
    (d: Destination) => Matches(d, term)
  }

  function Featured(d: Destination): bool
  {
    d.isFeatured
  }

  /** `DestinationListView.get_queryset`: an absent or empty parameter adds
      no filter. */
  function ListQueryset(rows: seq<Destination>, category: Option<string>, search: Option<string>): seq<Destination>
  {
    NewestFirst(Filtered(rows, category, search))
  }

  /** The conditional `filter` calls, before the ordering. */
  function Filtered(rows: seq<Destination>, category: Option<string>, search: Option<string>): seq<Destination>
  {
    var byCategory := if category.Some? && category.value != "" then Filter(rows, CategoryFilter(category.value)) else rows;
    if search.Some? && search.value != "" then Filter(byCategory, SearchFilter(search.value)) else byCategory
  }

  /** A row passes the filters exactly when it is in the table and matches
      every given, non-empty parameter. */
  lemma FilteredMembers(rows: seq<Destination>, category: Option<string>, search: Option<string>, d: Destination)
    ensures d in Filtered(rows, category, search) <==>
      d in rows
      && (category.Some? && category.value != "" ==> InCategory(d, category.value))
      && (search.Some? && search.value != "" ==> Matches(d, search.value))
  {
    var byCategory := if category.Some? && category.value != "" then Filter(rows, CategoryFilter(category.value)) else rows;
    if category.Some? && category.value != "" {
      FilterMembers(rows, CategoryFilter(category.value), d);
    }
    if search.Some? && search.value != "" {
      FilterMembers(byCategory, SearchFilter(search.value), d);
    }
  }

  /** The list holds every row passing the given filters, each once as
      often as in the table, and nothing else, newest first. */
  lemma ListQuerysetMeaning(rows: seq<Destination>, category: Option<string>, search: Option<string>, d: Destination)
    ensures d in ListQueryset(rows, category, search) <==>
      d in rows
      && (category.Some? && category.value != "" ==> InCategory(d, category.value))
      && (search.Some? && search.value != "" ==> Matches(d, search.value))
    ensures SortedBy(ListQueryset(rows, category, search), CreatedAt, true)
    ensures ListQueryset(rows, None, None) == NewestFirst(rows)
    ensures multiset(ListQueryset(rows, None, None)) == multiset(rows)
  {
    var filtered := Filtered(rows, category, search);
    FilteredMembers(rows, category, search, d);
    SortByCorrect(filtered, CreatedAt, true);
    SortByCorrect(rows, CreatedAt, true);
    assert d in NewestFirst(filtered) <==> d in multiset(NewestFirst(filtered));
  }

  /** `featured_destinations`: the six newest featured rows. */
  function FeaturedDestinations(rows: seq<Destination>): seq<Destination>
  {
    Take(NewestFirst(Filter(rows, Featured)), FeaturedLimit)
  }

  /** At most six, all featured, newest first, and six whenever there are
      at least six featured rows. */
  lemma FeaturedDestinationsMeaning(rows: seq<Destination>)
    ensures |FeaturedDestinations(rows)| <= FeaturedLimit
    ensures forall i :: 0 <= i < |FeaturedDestinations(rows)| ==> FeaturedDestinations(rows)[i].isFeatured
    ensures SortedBy(FeaturedDestinations(rows), CreatedAt, true)
    ensures |Filter(rows, Featured)| >= FeaturedLimit ==> |FeaturedDestinations(rows)| == FeaturedLimit
    ensures |Filter(rows, Featured)| < FeaturedLimit ==> multiset(FeaturedDestinations(rows)) == multiset(Filter(rows, Featured))
  {
    var featured := Filter(rows, Featured);
    SortByCorrect(featured, CreatedAt, true);
    var sorted := NewestFirst(featured);
    forall i | 0 <= i < |FeaturedDestinations(rows)|
      ensures FeaturedDestinations(rows)[i].isFeatured
    {
      var x := FeaturedDestinations(rows)[i];
      assert x == sorted[i];
      assert x in multiset(featured);
      FilterMembers(rows, Featured, x);
    }
  }

  /** The body of `search_destinations`: the results. */
  function SearchDestinations(rows: seq<Destination>, q: string): seq<Destination>
  {
    if q == "" then [] else Take(NewestFirst(Filter(rows, SearchFilter(q))), SearchLimit)
  }

  /** An empty query finds nothing; otherwise the results are the first ten
      of the list endpoint's answer to the same search. */
  lemma SearchIsListPrefix(rows: seq<Destination>, q: string)
    ensures q == "" ==> SearchDestinations(rows, q) == []
    ensures |SearchDestinations(rows, q)| <= SearchLimit
    ensures q != "" ==>
      var listed := ListQueryset(rows, None, Some(q));
      SearchDestinations(rows, q) == listed[..|SearchDestinations(rows, q)|]
      && |SearchDestinations(rows, q)| == if |listed| < SearchLimit then |listed| else SearchLimit
  {
  }
}
