/**
 * The access detail of one account (users/access-user/detail): the account's profile
 * fills a read-only form, its access grants are listed (searched by menu or action name,
 * paged ten at a time), and a grant's button posts that grant back to the backend and
 * reloads the page.
 */
module AccessUserDetail {
  import opened Paging
  import opened Remote
  import opened Records
  import opened Searches
  import opened Grants

  const ItemsPerPage: nat := 10
  const LoadUserFailed: string := "Failed to load user data."

  /** `results.data` of `/users/account?uid=`. */
  datatype UserData = UserData(
    first_name: Option<string>,
    last_name: Option<string>,
    email: Option<string>,
    roles_id: Option<int>)

  /** The form; a `roles_id` of `None` is the empty string. */
  datatype FormData = FormData(first_name: string, last_name: string, email: string, roles_id: Option<int>)

  const EmptyForm := FormData("", "", "", None)

  /** Each field of the profile, or the empty string when it is missing or falsy. */
  function ToForm(u: UserData): (f: FormData)
    ensures f.first_name == OrDefault(u.first_name, "") && f.last_name == OrDefault(u.last_name, "")
    ensures f.email == OrDefault(u.email, "")
    ensures f.roles_id == NumberOrEmpty(u.roles_id)
  {
    FormData(OrDefault(u.first_name, ""), OrDefault(u.last_name, ""), OrDefault(u.email, ""),
      NumberOrEmpty(u.roles_id))
  }

  /** A profile whose fields are all present and truthy is shown unchanged. */
  lemma ToFormPresent(first: string, last: string, email: string, role: int)
    requires first != "" && last != "" && email != "" && role != 0
    ensures ToForm(UserData(Some(first), Some(last), Some(email), Some(role))) ==
      FormData(first, last, email, Some(role))
  {
  }

  datatype ListView = NoneFound | Table(rows: seq<AccountAccess>)

  class AccessUserPage {
    const uid: string
    var accessUsers: seq<AccountAccess>
    var loading: bool
    var searchQuery: string
    var error: Option<string>
    var currentPage: nat
    var formData: FormData

    ghost predicate Valid()
      reads this
    {
      currentPage >= 1
    }

    constructor (uid: string)
      ensures Valid()
      ensures this.uid == uid
      ensures accessUsers == [] && loading && searchQuery == "" && error == None
      ensures currentPage == 1 && formData == EmptyForm
    {
      this.uid := uid;
      accessUsers, loading, searchQuery, error := [], true, "", None;
      currentPage, formData := 1, EmptyForm;
    }

    /** `fetchUserData` completes: a profile fills the form, a missing one is an error; loading ends. */
    method FetchUserData(response: Fetch<Option<UserData>>)
      requires Valid()
      modifies this
      ensures Valid() && !loading
      ensures response.Success? && response.value.Some? ==>
        formData == ToForm(response.value.value) && error == old(error)
      ensures response.Failure? || response.value.None? ==>
        formData == old(formData) && error == Some(LoadUserFailed)
      ensures accessUsers == old(accessUsers) && searchQuery == old(searchQuery)
      ensures currentPage == old(currentPage)
    {
      if response.Success? && response.value.Some? {
        formData := ToForm(response.value.value);
      } else {
        error := Some(LoadUserFailed);
      }
      loading := false;
    }

    /** `fetchAccessUser` completes: an array of grants replaces the list, anything else is an error. */
    method FetchAccessUser(response: Fetch<ListField<AccountAccess>>)
      requires Valid()
      modifies this
      ensures Valid()
      ensures response.Success? && response.value.Some? ==>
        accessUsers == response.value.value && error == old(error)
      ensures response.Failure? || response.value.None? ==>
        accessUsers == old(accessUsers) && error == Some(LoadUsersFailed)
      ensures loading == old(loading) && formData == old(formData)
      ensures searchQuery == old(searchQuery) && currentPage == old(currentPage)
    {
      if response.Success? && response.value.Some? {
        accessUsers := response.value.value;
      } else {
        error := Some(LoadUsersFailed);
      }
    }

    /**
     * `handleRevokeAccess(grant)`: the request carries `AccountRequest(grant)`; on success the
     * page reloads (`reload`), on failure the error is shown and nothing else changes.
     */
    method RevokeAccess(grant: AccountAccess, post: Fetch<()>) returns (body: AccountGrantRequest, reload: bool)
      requires Valid()
      modifies this
      ensures Valid()
      ensures body == AccountRequest(grant)
      ensures reload <==> post.Success?
      ensures post.Success? ==> error == old(error)
      ensures post.Failure? ==> error == Some(UpdateAccessFailed)
      ensures accessUsers == old(accessUsers) && loading == old(loading) && formData == old(formData)
      ensures searchQuery == old(searchQuery) && currentPage == old(currentPage)
    {
      body := AccountRequest(grant);
      match post {
        case Success(_) => reload := true;
        case Failure(_) =>
          reload := false;
          error := Some(UpdateAccessFailed);
      }
    }

    method SetSearchQuery(value: string)
      requires Valid()
      modifies this
      ensures Valid()
      ensures searchQuery == value
      ensures accessUsers == old(accessUsers) && loading == old(loading) && error == old(error)
      ensures currentPage == old(currentPage) && formData == old(formData)
    {
      searchQuery := value;
    }

    /** `filteredUsers`. */
    function FilteredUsers(): seq<AccountAccess>
      reads this
    {
      SearchAccountAccess(accessUsers, searchQuery)
    }

    function TotalPages(): nat
      reads this
    {
      Paging.TotalPages(|FilteredUsers()|, ItemsPerPage)
    }

    method HandlePrevPage()
      requires Valid()
      modifies this
      ensures Valid()
      ensures currentPage == Prev(old(currentPage))
      ensures accessUsers == old(accessUsers) && loading == old(loading) && error == old(error)
      ensures searchQuery == old(searchQuery) && formData == old(formData)
    {
      if currentPage > 1 {
        currentPage := currentPage - 1;
      }
    }

    method HandleNextPage()
      requires Valid()
      modifies this
      ensures Valid()
      ensures currentPage == Next(old(currentPage), old(TotalPages()))
      ensures accessUsers == old(accessUsers) && loading == old(loading) && error == old(error)
      ensures searchQuery == old(searchQuery) && formData == old(formData)
    {
      if currentPage < TotalPages() {
        currentPage := currentPage + 1;
      }
    }

    /** `paginatedData`. */
    function PaginatedData(): (r: seq<AccountAccess>)
      reads this
      requires Valid()
      ensures |r| <= ItemsPerPage
      ensures IsPage(r, FilteredUsers(), currentPage, ItemsPerPage)
    {
      var matches := FilteredUsers();
      PageIsPage(matches, currentPage, ItemsPerPage);
      Page(matches, currentPage, ItemsPerPage)
    }

    /** "No users found." exactly when no grant matches. */
    function Rendered(): (v: ListView)
      reads this
      requires Valid()
      ensures v == NoneFound <==> FilteredUsers() == []
      ensures v.Table? ==> v.rows == PaginatedData()
    {
      if |FilteredUsers()| == 0 then NoneFound else Table(PaginatedData())
    }

    /** Paging through every page shows every matching grant once, in order. */
    lemma PagesCoverFiltered()
      ensures Concat(AllPages(FilteredUsers(), ItemsPerPage)) == FilteredUsers()
    {
      ConcatAllPages(FilteredUsers(), ItemsPerPage);
    }
  }
}
