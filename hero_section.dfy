/** The home page search box: the query it builds for the destinations
    page. */
module HeroSection {
  import opened Base
  import opened Js

  datatype SearchData = SearchData(destination: string, checkIn: string, checkOut: string, guests: Option<int>)

  /** The initial box: empty texts and one guest. */
  const InitialSearch := SearchData("", "", "", Some(1))

  /** The query `handleSearch` appends: each non-empty text under its own
      name, in box order. The guest count is never sent. */
  function Query(s: SearchData): seq<(string, string)>
  {
    (if s.destination != "" then [("search", s.destination)] else [])
    + (if s.checkIn != "" then [("date_from", s.checkIn)] else [])
    + (if s.checkOut != "" then [("date_to", s.checkOut)] else [])
  }

  predicate HasKey(q: seq<(string, string)>, key: string)
  {
    exists i :: 0 <= i < |q| && q[i].0 == key
  }

  /** Each parameter is present exactly when its box has text, carries that
      text, and the order is search, date_from, date_to; nothing mentions
      the guests. */
  lemma QueryMeaning(s: SearchData)
    ensures HasKey(Query(s), "search") <==> s.destination != ""
    ensures HasKey(Query(s), "date_from") <==> s.checkIn != ""
    ensures HasKey(Query(s), "date_to") <==> s.checkOut != ""
    ensures !HasKey(Query(s), "guests")
    ensures forall i :: 0 <= i < |Query(s)| ==> Query(s)[i].1 != ""
    ensures s.destination != "" ==> Query(s)[0] == ("search", s.destination)
    ensures s.checkOut != "" ==> Query(s)[|Query(s)| - 1] == ("date_to", s.checkOut)
    ensures |Query(s)| <= 3
  {
    var q := Query(s);
    forall i | 0 <= i < |q|
      ensures q[i].0 == "search" || q[i].0 == "date_from" || q[i].0 == "date_to"
    {
    }
    if s.destination != "" { assert q[0].0 == "search"; }
    if s.checkIn != "" {
      var i := if s.destination != "" then 1 else 0;
      assert q[i].0 == "date_from";
    }
    if s.checkOut != "" { assert q[|q| - 1].0 == "date_to"; }
  }

  /** The box's fields. */
  datatype Field = DestinationField | CheckInField | CheckOutField | GuestsField

  class Hero {
    var searchData: SearchData

    constructor ()
      ensures searchData == InitialSearch
    {
      searchData := InitialSearch;
    }

    /** `handleInputChange`: only the named field changes; the guest count
      goes through `parseInt`. */
    method HandleInputChange(field: Field, value: string)
      modifies this
      ensures field == DestinationField ==> searchData == old(searchData).(destination := value)
      ensures field == CheckInField ==> searchData == old(searchData).(checkIn := value)
      ensures field == CheckOutField ==> searchData == old(searchData).(checkOut := value)
      ensures field == GuestsField ==> searchData == old(searchData).(guests := ParseInt(value))
    {
      match field {
        case DestinationField => searchData := searchData.(destination := value);
        case CheckInField => searchData := searchData.(checkIn := value);
        case CheckOutField => searchData := searchData.(checkOut := value);
        case GuestsField => searchData := searchData.(guests := ParseInt(value));
      }
    }

    /** `handleSearch`: the query is appended to step by step, and the box
      always goes to the destinations page. */
    method HandleSearch() returns (nav: Nav)
      ensures nav == NavigateTo("/destinations", Query(searchData), None)
    {
      var query: seq<(string, string)> := [];
      if searchData.destination != "" {
        query := query + [("search", searchData.destination)];
      }
      if searchData.checkIn != "" {
        query := query + [("date_from", searchData.checkIn)];
      }
      if searchData.checkOut != "" {
        query := query + [("date_to", searchData.checkOut)];
      }
      nav := NavigateTo("/destinations", query, None);
    }
  }
}
