/**
 * The fleet master list (`FleetTable` of masters/fleet): the list is loaded once,
 * searched on four fields when the Search button is pressed, and paged ten at a time
 * with a stored `totalPages`.
 */
module FleetMaster {
  import opened Text
  import opened Collections
  import opened Paging
  import opened Remote
  import opened Records

  const ItemsPerPage: nat := 10
  const FetchFailed: string := "Failed to fetch data. Please try again later."

  /** A vehicle matches when its plate, type, branch or driver includes the term, ignoring case. */
  predicate Matches(f: Fleet, term: string) {
    MatchesIgnoringCase(f.plat_number, term) || MatchesIgnoringCase(f.vehicletype, term) ||
    MatchesIgnoringCase(f.branch_name, term) || MatchesIgnoringCase(f.driver, term)
  }

  /** The list `handleSearch` computes: exactly the matching vehicles, each as often as before. */
  function SearchFleets(fleets: seq<Fleet>, term: string): (r: seq<Fleet>)
    ensures |r| <= |fleets|
    ensures forall f :: f in r <==> f in fleets && Matches(f, term)
    ensures forall f :: multiset(r)[f] == if Matches(f, term) then multiset(fleets)[f] else 0
  {
    Filter(fleets, (f: Fleet) => Matches(f, term))
  }

  /** The search keeps the original order: it distributes over concatenation. */
  lemma SearchFleetsAppend(a: seq<Fleet>, b: seq<Fleet>, term: string)
    ensures SearchFleets(a + b, term) == SearchFleets(a, term) + SearchFleets(b, term)
  {
    FilterAppend(a, b, (f: Fleet) => Matches(f, term));
  }

  /** Searching for the empty term gives back the whole list. */
  lemma SearchFleetsEmptyTerm(fleets: seq<Fleet>)
    ensures SearchFleets(fleets, "") == fleets
  {
    forall f | f in fleets ensures Matches(f, "") {
      MatchesEmptyQuery(f.plat_number);
    }
    FilterAll(fleets, (f: Fleet) => Matches(f, ""));
  }

  class FleetTable {
    var fleetData: seq<Fleet>
    var filteredData: seq<Fleet>
    var searchTerm: string
    var loading: bool
    var error: string
    var currentPage: nat
    var totalPages: nat

    /**
     * The page stays within `1..max(1, totalPages)`; before the one load completes the
     * lists are empty and the page is 1.
     */
    ghost predicate Valid()
      reads this
    {
      1 <= currentPage <= Max(1, totalPages) &&
      (loading ==> fleetData == [] && filteredData == [] && currentPage == 1 && totalPages <= 1)
    }

    /** `totalPages` agrees with the filtered list (true after the load and after every search). */
    ghost predicate Synced()
      reads this
    {
      totalPages == TotalPages(|filteredData|, ItemsPerPage)
    }

    /** The state of a freshly mounted screen. */
    constructor ()
      ensures Valid()
      ensures fleetData == [] && filteredData == [] && searchTerm == ""
      ensures loading && error == "" && currentPage == 1 && totalPages == 1
    {
      fleetData, filteredData, searchTerm := [], [], "";
      loading, error := true, "";
      currentPage, totalPages := 1, 1;
    }

    /** The mount effect: the single fetch of `/masters/fleet` completes. */
    method Load(response: Fetch<seq<Fleet>>)
      requires Valid() && loading
      modifies this
      ensures Valid() && !loading
      ensures searchTerm == old(searchTerm) && currentPage == old(currentPage)
      ensures response.Success? ==>
        fleetData == response.value && filteredData == response.value &&
        totalPages == TotalPages(|response.value|, ItemsPerPage) && error == old(error) && Synced()
      ensures response.Failure? ==>
        error == FetchFailed && fleetData == old(fleetData) &&
        filteredData == old(filteredData) && totalPages == old(totalPages)
    {
      match response {
        case Success(fetched) =>
          fleetData := fetched;
          filteredData := fetched;
          totalPages := TotalPages(|fetched|, ItemsPerPage);
        case Failure(_) =>
          error := FetchFailed;
      }
      loading := false;
    }

    /** Typing in the search box stores the term and nothing else. */
    method SearchChange(value: string)
      requires Valid()
      modifies this
      ensures Valid()
      ensures searchTerm == value
      ensures fleetData == old(fleetData) && filteredData == old(filteredData)
      ensures currentPage == old(currentPage) && totalPages == old(totalPages)
      ensures loading == old(loading) && error == old(error)
    {
      searchTerm := value;
    }

    /** The Search button: filter the loaded list, go to page 1, recount the pages. */
    method HandleSearch()
      requires Valid()
      modifies this
      ensures Valid() && Synced()
      ensures filteredData == SearchFleets(fleetData, searchTerm)
      ensures currentPage == 1
      ensures fleetData == old(fleetData) && searchTerm == old(searchTerm)
      ensures loading == old(loading) && error == old(error)
    {
      var filtered := SearchFleets(fleetData, searchTerm);
      assert loading ==> filtered == [];
      ShowResults(filtered);
    }

    /** The three state updates of a search: the new list, page 1 and its page count. */
    method ShowResults(filtered: seq<Fleet>)
      requires Valid()
      requires loading ==> filtered == []
      modifies this
      ensures Valid() && Synced()
      ensures filteredData == filtered && currentPage == 1
      ensures fleetData == old(fleetData) && searchTerm == old(searchTerm)
      ensures loading == old(loading) && error == old(error)
    {
      filteredData := filtered;
      currentPage := 1;
      totalPages := TotalPages(|filtered|, ItemsPerPage);
    }

    /** The Previous button. */
    method HandlePrevPage()
      requires Valid()
      modifies this
      ensures Valid()
      ensures currentPage == Prev(old(currentPage))
      ensures fleetData == old(fleetData) && filteredData == old(filteredData)
      ensures searchTerm == old(searchTerm) && totalPages == old(totalPages)
      ensures loading == old(loading) && error == old(error)
    {
      NavigationKeepsRange(currentPage, totalPages);
      if currentPage > 1 {
        currentPage := currentPage - 1;
      }
    }

    /** The Next button. */
    method HandleNextPage()
      requires Valid()
      modifies this
      ensures Valid()
      ensures currentPage == Next(old(currentPage), old(totalPages))
      ensures fleetData == old(fleetData) && filteredData == old(filteredData)
      ensures searchTerm == old(searchTerm) && totalPages == old(totalPages)
      ensures loading == old(loading) && error == old(error)
    {
      NavigationKeepsRange(currentPage, totalPages);
      if currentPage < totalPages {
        currentPage := currentPage + 1;
      }
    }

    /** `currentItems`: `filteredData[(currentPage - 1) * 10 .. currentPage * 10)`, clamped to the list. */
    function CurrentItems(): (r: seq<Fleet>)
      reads this
      requires Valid()
      ensures |r| <= ItemsPerPage
      ensures IsPage(r, filteredData, currentPage, ItemsPerPage)
    {
      PageIsPage(filteredData, currentPage, ItemsPerPage);
      Page(filteredData, currentPage, ItemsPerPage)
    }
  }
}
