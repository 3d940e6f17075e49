/** The venue list page: the search box, the sport check-boxes and the
    list of venues shown. */
module VenueFilter {
  import opened Wrappers
  import opened Types
  import opened Text
  import Lists
  import DataService

  /** The venues fetched for the search box: the search when the query is
      non-empty, every venue otherwise. Either way these are exactly the
      venues that match the lower-cased query, each as often as stored and
      in store order, and for the empty query the whole list. */
  function FetchVenues(store: DataService.Store, searchQuery: string): (r: seq<Venue>)
    reads store
    ensures forall v :: v in r <==> v in store.venues && DataService.MatchesQuery(v, ToLower(searchQuery))
    ensures forall v :: multiset(r)[v] ==
              if DataService.MatchesQuery(v, ToLower(searchQuery)) then multiset(store.venues)[v] else 0
    ensures Lists.IsSubseq(r, store.venues)
    ensures searchQuery == "" ==> r == store.venues
  {
    if searchQuery != "" then store.SearchVenues(searchQuery)
    else
      DataService.SearchEmptyListsAll(store);
      store.venues
  }

  /** The sport filter as written: it lets every fetched venue through,
      whatever sports are selected (and is absent while nothing is fetched). */
  function FilteredVenues(venues: Option<seq<Venue>>, selectedSports: seq<SportType>): (r: Option<seq<Venue>>)
    ensures r == venues
  {
    match venues
    case None => None
    case Some(vs) =>
      var keep := (v: Venue) => if |selectedSports| == 0 then true else true;
      Lists.FilterAll(vs, keep);
      Some(Lists.Filter(vs, keep))
  }

  /** The page's state: the query and the selected sports. */
  class VenueFilterPage {
    var searchQuery: string
    var selectedSports: seq<SportType>

    /** No sport is ever selected twice. */
    ghost predicate Valid()
      reads this
    {
      Lists.NoDup(selectedSports)
    }

    constructor ()
      ensures Valid() && searchQuery == "" && selectedSports == []
    {
      searchQuery := "";
      selectedSports := [];
    }

    method SetSearchQuery(query: string)
      modifies this
      ensures searchQuery == query && selectedSports == old(selectedSports)
    {
      searchQuery := query;
    }

    /** Removes every occurrence of a selected sport, or appends an
        unselected one at the end. */
    method HandleSportFilter(sport: SportType)
      requires Valid()
      modifies this
      ensures Valid()
      ensures selectedSports == Lists.Toggle(old(selectedSports), sport)
      ensures searchQuery == old(searchQuery)
    {
      Lists.ToggleNoDup(selectedSports, sport);
      if sport in selectedSports {
        selectedSports := Lists.RemoveAll(selectedSports, sport);
      } else {
        selectedSports := selectedSports + [sport];
      }
    }
  }
}
