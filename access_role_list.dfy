/**
 * The access role list (users/access-role/list): roles are loaded once, searched by name
 * and listed with their 1-based position. Its toggle handler is keyed on `uid`.
 */
module AccessRoleList {
  import opened Remote
  import opened Records
  import opened Toggle
  import opened Searches

  datatype ListView = NoneFound | Table(rows: seq<Role>)

  class AccessRoleListPage {
    var users: seq<Role>
    var searchQuery: string
    var error: Option<string>

    constructor ()
      ensures users == [] && searchQuery == "" && error == None
    {
      users, searchQuery, error := [], "", None;
    }

    method FetchUsers(response: Fetch<ListField<Role>>)
      modifies this
      ensures response.Success? && response.value.Some? ==>
        users == response.value.value && error == old(error)
      ensures response.Failure? || response.value.None? ==>
        users == old(users) && error == Some(LoadUsersFailed)
      ensures searchQuery == old(searchQuery)
    {
      if response.Success? && response.value.Some? {
        users := response.value.value;
      } else {
        error := Some(LoadUsersFailed);
      }
    }

    method RevokeAccess(userId: string, patch: Fetch<()>)
      modifies this
      ensures patch.Success? ==> users == ToggleRoleByUid(old(users), userId) && error == old(error)
      ensures patch.Success? ==> FilteredUsers() == ToggleRoleByUid(old(FilteredUsers()), userId)
      ensures patch.Failure? ==> users == old(users) && error == Some(UpdateAccessFailed)
      ensures searchQuery == old(searchQuery)
    {
      match patch {
        case Success(_) =>
          SearchRolesToggleByUid(users, searchQuery, userId);
          users := ToggleRoleByUid(users, userId);
        case Failure(_) => error := Some(UpdateAccessFailed);
      }
    }

    method SetSearchQuery(value: string)
      modifies this
      ensures searchQuery == value
      ensures users == old(users) && error == old(error)
    {
      searchQuery := value;
    }

    function FilteredUsers(): seq<Role>
      reads this
    {
      SearchRoles(users, searchQuery)
    }

    function Rendered(): (v: ListView)
      reads this
      ensures v == NoneFound <==> FilteredUsers() == []
      ensures v.Table? ==> v.rows == FilteredUsers()
    {
      if |FilteredUsers()| == 0 then NoneFound else Table(FilteredUsers())
    }

    /** The "No." column: `index + 1`, the row's position among the matches. */
    function RowNumber(index: nat): (n: nat)
      reads this
      requires index < |FilteredUsers()|
      ensures 1 <= n <= |FilteredUsers()|
      ensures FilteredUsers()[n - 1] == Rendered().rows[index]
    {
      index + 1
    }
  }
}
