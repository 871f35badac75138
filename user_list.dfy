/**
 * The account list (users/user/list): without a `uid` route parameter the accounts are
 * loaded, searched by first or last name and paged five at a time through `paginate`,
 * which accepts only a page between 1 and the page count. The page is not reset by a
 * search.
 */
module AccountList {
  import opened Paging
  import opened Remote
  import opened Records
  import opened Searches

  const UsersPerPage: nat := 5

  /** What the screen renders below the search bar. */
  datatype View = EditForm | NoneFound | Table(rows: seq<Account>)

  class AccountListPage {
    const uid: Option<string>
    var users: seq<Account>
    var searchQuery: string
    var error: Option<string>
    var currentPage: nat

    ghost predicate Valid()
      reads this
    {
      currentPage >= 1
    }

    constructor (uid: Option<string>)
      ensures Valid()
      ensures this.uid == uid
      ensures users == [] && searchQuery == "" && error == None && currentPage == 1
    {
      this.uid := uid;
      users, searchQuery, error, currentPage := [], "", None, 1;
    }

    /**
     * The mount effect: without a `uid` the account list request's outcome is applied;
     * with one the detail request is only logged and nothing changes.
     */
    method Mount(response: Fetch<ListField<Account>>)
      requires Valid()
      modifies this
      ensures Valid()
      ensures !Truthy(uid) && response.Success? && response.value.Some? ==>
        users == response.value.value && error == old(error)
      ensures !Truthy(uid) && (response.Failure? || response.value.None?) ==>
        users == old(users) && error == Some(LoadUsersFailed)
      ensures Truthy(uid) ==> users == old(users) && error == old(error)
      ensures searchQuery == old(searchQuery) && currentPage == old(currentPage)
    {
      if Truthy(uid) {
        return;
      }
      if response.Success? && response.value.Some? {
        users := response.value.value;
      } else {
        error := Some(LoadUsersFailed);
      }
    }

    method SetSearchQuery(value: string)
      requires Valid()
      modifies this
      ensures Valid()
      ensures searchQuery == value
      ensures users == old(users) && error == old(error) && currentPage == old(currentPage)
    {
      searchQuery := value;
    }

    /** `filteredUsers`. */
    function FilteredUsers(): seq<Account>
      reads this
    {
      SearchAccounts(users, searchQuery)
    }

    /** `Math.ceil(filteredUsers.length / usersPerPage)`. */
    function TotalPages(): nat
      reads this
    {
      Paging.TotalPages(|FilteredUsers()|, UsersPerPage)
    }

    /** The guard of `paginate`. */
    function Accepts(pageNumber: int): (r: bool)
      reads this
      ensures r ==> 1 <= pageNumber <= TotalPages()
      ensures pageNumber <= 0 || pageNumber > TotalPages() ==> !r
      ensures r ==> TotalPages() >= 1
    {
      0 < pageNumber <= TotalPages()
    }

    /** `paginate(pageNumber)`: move there if the guard accepts it, else stay. */
    method Paginate(pageNumber: int)
      requires Valid()
      modifies this
      ensures Valid()
      ensures Accepts(pageNumber) ==> currentPage == pageNumber
      ensures !Accepts(pageNumber) ==> currentPage == old(currentPage)
      ensures users == old(users) && searchQuery == old(searchQuery) && error == old(error)
    {
      if pageNumber > 0 && pageNumber <= TotalPages() {
        currentPage := pageNumber;
      }
    }

    /** `currentUsers`. */
    function CurrentUsers(): (r: seq<Account>)
      reads this
      requires Valid()
      ensures |r| <= UsersPerPage
      ensures IsPage(r, FilteredUsers(), currentPage, UsersPerPage)
    {
      var matches := FilteredUsers();
      PageIsPage(matches, currentPage, UsersPerPage);
      Page(matches, currentPage, UsersPerPage)
    }

    /** `indexOfFirstUser + index + 1` is the row's 1-based position in the filtered list. */
    function RowNumber(index: nat): (n: nat)
      reads this
      requires Valid() && index < |CurrentUsers()|
      ensures 1 <= n <= |FilteredUsers()|
      ensures FilteredUsers()[n - 1] == CurrentUsers()[index]
    {
      var page, matches := CurrentUsers(), FilteredUsers();
      RowNumberIsPosition(page, matches, currentPage, UsersPerPage, index);
      Paging.RowNumber(currentPage, UsersPerPage, index)
    }

    function PrevDisabled(): (r: bool)
      reads this
      ensures r <==> currentPage == 1
      ensures r ==> !Accepts(currentPage - 1)
    {
      currentPage == 1
    }

    /** `indexOfLastUser >= users.length`. */
    function NextDisabled(): (r: bool)
      reads this
      ensures r <==> currentPage * UsersPerPage >= |FilteredUsers()|
      ensures r ==> Page(FilteredUsers(), currentPage + 1, UsersPerPage) == []
    {
      currentPage * UsersPerPage >= |FilteredUsers()|
    }

    /** Next is disabled exactly when `paginate(currentPage + 1)` would be refused. */
    lemma NextDisabledIffRefused()
      requires Valid()
      ensures NextDisabled() <==> !Accepts(currentPage + 1)
    {
      EndsPastLast(currentPage, |FilteredUsers()|, UsersPerPage);
    }

    /** On a page in range, Previous is disabled exactly when `paginate(currentPage - 1)` would be refused. */
    lemma PrevDisabledIffRefused()
      requires 1 <= currentPage <= Max(1, TotalPages())
      ensures PrevDisabled() <==> !Accepts(currentPage - 1)
    {
    }

    /**
     * A search that leaves the page two or more past the last one strands the screen:
     * no rows are shown, Next is disabled and both neighbours are refused.
     */
    lemma Stranded()
      requires currentPage >= TotalPages() + 2
      ensures CurrentUsers() == []
      ensures NextDisabled() && !PrevDisabled()
      ensures !Accepts(currentPage - 1) && !Accepts(currentPage + 1)
    {
      PageBeyondEmpty(FilteredUsers(), currentPage, UsersPerPage);
      NextDisabledIffRefused();
    }

    function Rendered(): (v: View)
      reads this
      requires Valid()
      ensures Truthy(uid) <==> v == EditForm
      ensures !Truthy(uid) ==> (v == NoneFound <==> FilteredUsers() == [])
      ensures v.Table? ==> v.rows == CurrentUsers()
    {
      if Truthy(uid) then EditForm
      else if |FilteredUsers()| == 0 then NoneFound
      else Table(CurrentUsers())
    }
  }
}
