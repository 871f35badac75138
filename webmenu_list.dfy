/**
 * The web menu list (menu/webmenu/list): the menus are loaded once, filtered by name as
 * the query is typed and paged ten at a time. The page is not reset by a search, so it
 * may point past the last page of a narrower result.
 */
module WebMenuList {
  import opened Text
  import opened Collections
  import opened Paging
  import opened Remote
  import opened Records
  import opened Toggle
  import opened Searches

  const ItemsPerPage: nat := 10

  /** What `UserList` renders for the filtered menus. */
  datatype ListView = NoneFound | Table(rows: seq<WebMenu>)

  class WebMenuPage {
    var users: seq<WebMenu>
    var searchQuery: string
    var error: Option<string>
    var currentPage: nat

    ghost predicate Valid()
      reads this
    {
      currentPage >= 1
    }

    constructor ()
      ensures Valid()
      ensures users == [] && searchQuery == "" && error == None && currentPage == 1
    {
      users, searchQuery, error, currentPage := [], "", None, 1;
    }

    /** `fetchUsers`: an array at `results.data` replaces the list; anything else is an error. */
    method FetchUsers(response: Fetch<ListField<WebMenu>>)
      requires Valid()
      modifies this
      ensures Valid()
      ensures response.Success? && response.value.Some? ==>
        users == response.value.value && error == old(error)
      ensures response.Failure? || response.value.None? ==>
        users == old(users) && error == Some(LoadUsersFailed)
      ensures searchQuery == old(searchQuery) && currentPage == old(currentPage)
    {
      if response.Success? && response.value.Some? {
        users := response.value.value;
      } else {
        error := Some(LoadUsersFailed);
      }
    }

    /** `handleRevokeAccess`: after the toggle request succeeds, flip the menu with that uid. */
    method RevokeAccess(userId: string, patch: Fetch<()>)
      requires Valid()
      modifies this
      ensures Valid()
      ensures patch.Success? ==> users == ToggleWebMenuByUid(old(users), userId) && error == old(error)
      ensures patch.Success? ==> FilteredUsers() == ToggleWebMenuByUid(old(FilteredUsers()), userId)
      ensures patch.Failure? ==> users == old(users) && error == Some(UpdateAccessFailed)
      ensures searchQuery == old(searchQuery) && currentPage == old(currentPage)
    {
      match patch {
        case Success(_) =>
          SearchWebMenusToggle(users, searchQuery, userId);
          users := ToggleWebMenuByUid(users, userId);
        case Failure(_) => error := Some(UpdateAccessFailed);
      }
    }

    /** The search box stores the query; the page is left as it was. */
    method SetSearchQuery(value: string)
      requires Valid()
      modifies this
      ensures Valid()
      ensures searchQuery == value
      ensures users == old(users) && error == old(error) && currentPage == old(currentPage)
    {
      searchQuery := value;
    }

    /** `filteredUsers`. */
    function FilteredUsers(): seq<WebMenu>
      reads this
    {
      SearchWebMenus(users, searchQuery)
    }

    function TotalPages(): nat
      reads this
    {
      Paging.TotalPages(|FilteredUsers()|, ItemsPerPage)
    }

    method HandlePrevPage()
      requires Valid()
      modifies this
      ensures Valid()
      ensures currentPage == Prev(old(currentPage))
      ensures users == old(users) && searchQuery == old(searchQuery) && error == old(error)
    {
      if currentPage > 1 {
        currentPage := currentPage - 1;
      }
    }

    method HandleNextPage()
      requires Valid()
      modifies this
      ensures Valid()
      ensures currentPage == Next(old(currentPage), old(TotalPages()))
      ensures users == old(users) && searchQuery == old(searchQuery) && error == old(error)
    {
      if currentPage < TotalPages() {
        currentPage := currentPage + 1;
      }
    }

    /** `paginatedData`. */
    function PaginatedData(): (r: seq<WebMenu>)
      reads this
      requires Valid()
      ensures |r| <= ItemsPerPage
      ensures IsPage(r, FilteredUsers(), currentPage, ItemsPerPage)
    {
      var matches := FilteredUsers();
      PageIsPage(matches, currentPage, ItemsPerPage);
      Page(matches, currentPage, ItemsPerPage)
    }

    /** The "No." column is the row's 1-based position in the filtered list. */
    function RowNumber(index: nat): (n: nat)
      reads this
      requires Valid() && index < |PaginatedData()|
      ensures 1 <= n <= |FilteredUsers()|
      ensures FilteredUsers()[n - 1] == PaginatedData()[index]
    {
      RowNumberIsPosition(PaginatedData(), FilteredUsers(), currentPage, ItemsPerPage, index);
      Paging.RowNumber(currentPage, ItemsPerPage, index)
    }

    /** "No webmenus found." exactly when nothing matches; otherwise the current page. */
    function Rendered(): (v: ListView)
      reads this
      requires Valid()
      ensures v == NoneFound <==> FilteredUsers() == []
      ensures v.Table? ==> v.rows == PaginatedData()
    {
      if |FilteredUsers()| == 0 then NoneFound else Table(PaginatedData())
    }

    /** Next is disabled only on the last page (`currentPage === totalPages`). */
    function NextDisabled(): (r: bool)
      reads this
      ensures r ==> Next(currentPage, TotalPages()) == currentPage
      ensures r <==> currentPage == TotalPages()
    {
      currentPage == TotalPages()
    }

    /**
     * A search that narrows the list can leave the page past the end: the table is then
     * empty although matches exist, and Next is enabled but does nothing.
     */
    lemma StrandedPage()
      requires Valid()
      requires FilteredUsers() != [] && currentPage > TotalPages()
      ensures Rendered() == Table([])
      ensures !NextDisabled() && Next(currentPage, TotalPages()) == currentPage
    {
      PageBeyondEmpty(FilteredUsers(), currentPage, ItemsPerPage);
    }

    /** On a page in range, Next is enabled exactly when it moves to the following page. */
    lemma NextDisabledInRange()
      requires 1 <= currentPage <= TotalPages()
      ensures !NextDisabled() <==> Next(currentPage, TotalPages()) == currentPage + 1
    {
    }
  }
}
