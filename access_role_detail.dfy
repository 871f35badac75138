/**
 * The access detail of one role (users/access-role/detail): the role fills a read-only
 * form, its access grants are listed (searched by menu or action name, paged ten at a
 * time), and a grant's button posts that grant back and reloads the page.
 */
module AccessRoleDetail {
  import opened Paging
  import opened Remote
  import opened Records
  import opened Searches
  import opened Grants

  const ItemsPerPage: nat := 10
  const LoadRoleFailed: string := "Failed to load user data."
  const UpdateRoleAccessFailed: string := "Failed to update access role"

  /** `results.data` of `/users/roles?id=`. */
  datatype RoleData = RoleData(id: Option<int>, name: Option<string>)

  /** The form; an `id` of `None` is the empty string. */
  datatype FormData = FormData(id: Option<int>, name: string)

  const EmptyForm := FormData(None, "")

  function ToForm(r: RoleData): (f: FormData)
    ensures f.id == NumberOrEmpty(r.id)
    ensures f.name == OrDefault(r.name, "")
  {
    FormData(NumberOrEmpty(r.id), OrDefault(r.name, ""))
  }

  datatype ListView = NoneFound | Table(rows: seq<RoleAccess>)

  class AccessRolePage {
    const rolesId: string
    var accessRoles: seq<RoleAccess>
    var searchQuery: string
    var loading: bool
    var error: Option<string>
    var currentPage: nat
    var formData: FormData

    ghost predicate Valid()
      reads this
    {
      currentPage >= 1
    }

    constructor (id: string)
      ensures Valid()
      ensures rolesId == id
      ensures accessRoles == [] && searchQuery == "" && loading && error == None
      ensures currentPage == 1 && formData == EmptyForm
    {
      rolesId := id;
      accessRoles, searchQuery, loading, error := [], "", true, None;
      currentPage, formData := 1, EmptyForm;
    }

    /** `fetchRolerData` completes: a role fills the form, a missing one is an error; loading ends. */
    method FetchRoleData(response: Fetch<Option<RoleData>>)
      requires Valid()
      modifies this
      ensures Valid() && !loading
      ensures response.Success? && response.value.Some? ==>
        formData == ToForm(response.value.value) && error == old(error)
      ensures response.Failure? || response.value.None? ==>
        formData == old(formData) && error == Some(LoadRoleFailed)
      ensures accessRoles == old(accessRoles) && searchQuery == old(searchQuery)
      ensures currentPage == old(currentPage)
    {
      if response.Success? && response.value.Some? {
        formData := ToForm(response.value.value);
      } else {
        error := Some(LoadRoleFailed);
      }
      loading := false;
    }

    /** `fetchAccessRole` completes: an array of grants replaces the list, anything else is an error. */
    method FetchAccessRole(response: Fetch<ListField<RoleAccess>>)
      requires Valid()
      modifies this
      ensures Valid()
      ensures response.Success? && response.value.Some? ==>
        accessRoles == response.value.value && error == old(error)
      ensures response.Failure? || response.value.None? ==>
        accessRoles == old(accessRoles) && error == Some(LoadUsersFailed)
      ensures loading == old(loading) && formData == old(formData)
      ensures searchQuery == old(searchQuery) && currentPage == old(currentPage)
    {
      if response.Success? && response.value.Some? {
        accessRoles := response.value.value;
      } else {
        error := Some(LoadUsersFailed);
      }
    }

    /** `handleRevokeAccess(grant)`: post `RoleRequest(grant)`; reload on success, else show the error. */
    method RevokeAccess(grant: RoleAccess, post: Fetch<()>) returns (body: RoleGrantRequest, reload: bool)
      requires Valid()
      modifies this
      ensures Valid()
      ensures body == RoleRequest(grant)
      ensures reload <==> post.Success?
      ensures post.Success? ==> error == old(error)
      ensures post.Failure? ==> error == Some(UpdateRoleAccessFailed)
      ensures accessRoles == old(accessRoles) && loading == old(loading) && formData == old(formData)
      ensures searchQuery == old(searchQuery) && currentPage == old(currentPage)
    {
      body := RoleRequest(grant);
      match post {
        case Success(_) => reload := true;
        case Failure(_) =>
          reload := false;
          error := Some(UpdateRoleAccessFailed);
      }
    }

    method SetSearchQuery(value: string)
      requires Valid()
      modifies this
      ensures Valid()
      ensures searchQuery == value
      ensures accessRoles == old(accessRoles) && loading == old(loading) && error == old(error)
      ensures currentPage == old(currentPage) && formData == old(formData)
    {
      searchQuery := value;
    }

    /** `filteredAccessRoles`. */
    function FilteredAccessRoles(): seq<RoleAccess>
      reads this
    {
      SearchRoleAccess(accessRoles, searchQuery)
    }

    function TotalPages(): nat
      reads this
    {
      Paging.TotalPages(|FilteredAccessRoles()|, ItemsPerPage)
    }

    method HandlePrevPage()
      requires Valid()
      modifies this
      ensures Valid()
      ensures currentPage == Prev(old(currentPage))
      ensures accessRoles == old(accessRoles) && loading == old(loading) && error == old(error)
      ensures searchQuery == old(searchQuery) && formData == old(formData)
    {
      if currentPage > 1 {
        currentPage := currentPage - 1;
      }
    }

    method HandleNextPage()
      requires Valid()
      modifies this
      ensures Valid()
      ensures currentPage == Next(old(currentPage), old(TotalPages()))
      ensures accessRoles == old(accessRoles) && loading == old(loading) && error == old(error)
      ensures searchQuery == old(searchQuery) && formData == old(formData)
    {
      if currentPage < TotalPages() {
        currentPage := currentPage + 1;
      }
    }

    /** `paginatedData`. */
    function PaginatedData(): (r: seq<RoleAccess>)
      reads this
      requires Valid()
      ensures |r| <= ItemsPerPage
      ensures IsPage(r, FilteredAccessRoles(), currentPage, ItemsPerPage)
    {
      var matches := FilteredAccessRoles();
      PageIsPage(matches, currentPage, ItemsPerPage);
      Page(matches, currentPage, ItemsPerPage)
    }

    /** "No Access Role found." exactly when no grant matches. */
    function Rendered(): (v: ListView)
      reads this
      requires Valid()
      ensures v == NoneFound <==> FilteredAccessRoles() == []
      ensures v.Table? ==> v.rows == PaginatedData()
    {
      if |FilteredAccessRoles()| == 0 then NoneFound else Table(PaginatedData())
    }

    /** Every matching grant sits on exactly one page, at the position its index says. */
    lemma GrantOnPage(j: nat)
      requires j < |FilteredAccessRoles()|
      ensures 1 <= j / ItemsPerPage + 1 <= TotalPages()
      ensures Page(FilteredAccessRoles(), j / ItemsPerPage + 1, ItemsPerPage)[j % ItemsPerPage] ==
        FilteredAccessRoles()[j]
    {
      RowOnPage(FilteredAccessRoles(), j, ItemsPerPage);
    }
  }
}
