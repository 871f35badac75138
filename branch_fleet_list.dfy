/**
 * The per-branch fleet list (`FleetTable` of dashboard/list): a branch keyword of at
 * least three characters fetches branch suggestions; picking one makes it the branch
 * filter, which fetches that branch's fleet and returns to page 1. The plate-number
 * filter is fixed at the empty string, so every fetched vehicle is listed.
 */
module BranchFleetList {
  import opened Text
  import opened Collections
  import opened Paging
  import opened Remote
  import opened Records

  const ItemsPerPage: nat := 10
  const MinKeywordLength: nat := 3
  const BranchFetchFailed: string := "Failed to fetch branch data."
  const FleetFetchFailed: string := "Failed to fetch fleet data."

  /** `!kw || kw.length < 3` fails: only a keyword of three or more characters is looked up. */
  function LooksUp(keyword: string): (r: bool)
    ensures keyword == "" ==> !r
    ensures r <==> !(keyword == "" || |keyword| < 3)
  {
    |keyword| >= MinKeywordLength
  }

  /** `fleetData.filter(...)` on the plate number. */
  function FilterByPlate(fleets: seq<Fleet>, filter: string): (r: seq<Fleet>)
    ensures forall f :: f in r <==> f in fleets && MatchesIgnoringCase(f.plat_number, filter)
    ensures forall f :: multiset(r)[f] == if MatchesIgnoringCase(f.plat_number, filter) then multiset(fleets)[f] else 0
  {
    Filter(fleets, (f: Fleet) => MatchesIgnoringCase(f.plat_number, filter))
  }

  /** With the filter left at its initial empty value it keeps every vehicle, in order. */
  lemma FilterByEmptyPlate(fleets: seq<Fleet>)
    ensures FilterByPlate(fleets, "") == fleets
  {
    forall f | f in fleets ensures MatchesIgnoringCase(f.plat_number, "") {
      MatchesEmptyQuery(f.plat_number);
    }
    FilterAll(fleets, (f: Fleet) => MatchesIgnoringCase(f.plat_number, ""));
  }

  class BranchFleetTable {
    var fleetData: seq<Fleet>
    var loading: bool
    var error: string
    var filter: string
    var branchFilter: string
    var branchKeyword: string
    var branchData: seq<Branch>
    var suggestions: seq<Branch>
    var currentPage: nat

    /** No handler sets `filter`; the page stays within `1..max(1, totalPages)`. */
    ghost predicate Valid()
      reads this
    {
      filter == "" && 1 <= currentPage <= Max(1, Paging.TotalPages(|fleetData|, ItemsPerPage))
    }

    constructor ()
      ensures Valid()
      ensures fleetData == [] && !loading && error == ""
      ensures branchFilter == "" && branchKeyword == "" && branchData == [] && suggestions == []
      ensures currentPage == 1
    {
      fleetData, loading, error, filter := [], false, "", "";
      branchFilter, branchKeyword, branchData, suggestions := "", "", [], [];
      currentPage := 1;
    }

    /** `filteredData`. */
    function FilteredData(): seq<Fleet>
      reads this
    {
      FilterByPlate(fleetData, filter)
    }

    /** `totalPages`. */
    function TotalPages(): nat
      reads this
    {
      Paging.TotalPages(|FilteredData()|, ItemsPerPage)
    }

    /** The table lists the whole fetched fleet. */
    lemma FilteredIsFleet()
      requires Valid()
      ensures FilteredData() == fleetData
      ensures TotalPages() == Paging.TotalPages(|fleetData|, ItemsPerPage)
    {
      FilterByEmptyPlate(fleetData);
    }

    /** Typing in the keyword box. */
    method KeywordChange(value: string)
      requires Valid()
      modifies this
      ensures Valid()
      ensures branchKeyword == value
      ensures fleetData == old(fleetData) && loading == old(loading) && error == old(error)
      ensures branchFilter == old(branchFilter) && branchData == old(branchData)
      ensures suggestions == old(suggestions) && currentPage == old(currentPage)
    {
      branchKeyword := value;
    }

    /**
     * The effect on `branchKeyword`: a short keyword clears the suggestions without a
     * request; otherwise the lookup's outcome (`response`) fills them or sets the error.
     */
    method KeywordEffect(response: Fetch<ListField<Branch>>)
      requires Valid()
      modifies this
      ensures Valid()
      ensures !LooksUp(branchKeyword) ==> suggestions == [] && error == old(error)
      ensures LooksUp(branchKeyword) && response.Success? ==>
        suggestions == response.value.GetOr([]) && error == old(error)
      ensures LooksUp(branchKeyword) && response.Failure? ==>
        suggestions == old(suggestions) && error == BranchFetchFailed
      ensures fleetData == old(fleetData) && loading == old(loading)
      ensures branchFilter == old(branchFilter) && branchKeyword == old(branchKeyword)
      ensures branchData == old(branchData) && currentPage == old(currentPage)
    {
      if !LooksUp(branchKeyword) {
        suggestions := [];
        return;
      }
      match response {
        case Success(data) => suggestions := data.GetOr([]);
        case Failure(_) => error := BranchFetchFailed;
      }
    }

    /** Picking a suggestion closes the list and makes that branch the keyword and the filter. */
    method SuggestionClick(branch: Branch)
      requires Valid()
      modifies this
      ensures Valid()
      ensures suggestions == [] && branchKeyword == branch.name
      ensures branchFilter == branch.name && branchData == [branch]
      ensures fleetData == old(fleetData) && loading == old(loading) && error == old(error)
      ensures currentPage == old(currentPage)
    {
      suggestions := [];
      branchKeyword := branch.name;
      branchFilter := branch.name;
      branchData := [branch];
    }

    /**
     * The effect on `branchFilter`: nothing for an empty filter; otherwise the fleet
     * request's outcome replaces the list and returns to page 1, or sets the error.
     */
    method FleetEffect(response: Fetch<ListField<Fleet>>)
      requires Valid()
      modifies this
      ensures Valid()
      ensures branchFilter == "" ==>
        fleetData == old(fleetData) && loading == old(loading) &&
        error == old(error) && currentPage == old(currentPage)
      ensures branchFilter != "" ==> !loading
      ensures branchFilter != "" && response.Success? ==>
        fleetData == response.value.GetOr([]) && currentPage == 1 && error == old(error)
      ensures branchFilter != "" && response.Failure? ==>
        fleetData == old(fleetData) && currentPage == old(currentPage) && error == FleetFetchFailed
      ensures branchFilter == old(branchFilter) && branchKeyword == old(branchKeyword)
      ensures branchData == old(branchData) && suggestions == old(suggestions)
    {
      if branchFilter == "" {
        return;
      }
      loading := true;
      match response {
        case Success(data) =>
          fleetData := data.GetOr([]);
          currentPage := 1;
        case Failure(_) =>
          error := FleetFetchFailed;
      }
      loading := false;
    }

    method HandleNextPage()
      requires Valid()
      modifies this
      ensures Valid()
      ensures currentPage == Next(old(currentPage), old(TotalPages()))
      ensures fleetData == old(fleetData) && loading == old(loading) && error == old(error)
      ensures branchFilter == old(branchFilter) && branchKeyword == old(branchKeyword)
      ensures branchData == old(branchData) && suggestions == old(suggestions)
    {
      FilteredIsFleet();
      if currentPage < TotalPages() {
        currentPage := currentPage + 1;
      }
    }

    method HandlePrevPage()
      requires Valid()
      modifies this
      ensures Valid()
      ensures currentPage == Prev(old(currentPage))
      ensures fleetData == old(fleetData) && loading == old(loading) && error == old(error)
      ensures branchFilter == old(branchFilter) && branchKeyword == old(branchKeyword)
      ensures branchData == old(branchData) && suggestions == old(suggestions)
    {
      if currentPage > 1 {
        currentPage := currentPage - 1;
      }
    }

    /** `currentData`: the vehicles of the current page, in fetched order. */
    function CurrentData(): (r: seq<Fleet>)
      reads this
      requires Valid()
      ensures |r| <= ItemsPerPage
      ensures IsPage(r, fleetData, currentPage, ItemsPerPage)
      ensures fleetData != [] ==> r != []
    {
      FilteredIsFleet();
      PageInRangeNonEmpty(fleetData, currentPage, ItemsPerPage);
      PageIsPage(fleetData, currentPage, ItemsPerPage);
      Page(FilteredData(), currentPage, ItemsPerPage)
    }

    /** The table is replaced by the loading text or by the (never cleared) error. */
    function RenderedRows(): (r: seq<Fleet>)
      reads this
      requires Valid()
      ensures loading || error != "" ==> r == []
      ensures !loading && error == "" ==> r == CurrentData()
    {
      if loading || error != "" then [] else CurrentData()
    }
  }
}
