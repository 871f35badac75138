/**
 * The role list (users/role/index): roles are loaded once, searched by name, and each
 * row's button toggles the role's access, keyed on the numeric `id`.
 */
module RoleIndex {
  import opened Remote
  import opened Records
  import opened Toggle
  import opened Searches

  /** The rendered rows and whether "No users found." is shown beneath them. */
  datatype RoleView = RoleView(rows: seq<Role>, noneFound: bool)

  class RoleListPage {
    var users: seq<Role>
    var searchTerm: string
    var error: Option<string>

    constructor ()
      ensures users == [] && searchTerm == "" && error == None
    {
      users, searchTerm, error := [], "", None;
    }

    method FetchUsers(response: Fetch<ListField<Role>>)
      modifies this
      ensures response.Success? && response.value.Some? ==>
        users == response.value.value && error == old(error)
      ensures response.Failure? || response.value.None? ==>
        users == old(users) && error == Some(LoadUsersFailed)
      ensures searchTerm == old(searchTerm)
    {
      if response.Success? && response.value.Some? {
        users := response.value.value;
      } else {
        error := Some(LoadUsersFailed);
      }
    }

    /** `handleRevokeAccess(id)`: after the toggle request succeeds, flip the role with that `id`. */
    method RevokeAccess(userId: int, patch: Fetch<()>)
      modifies this
      ensures patch.Success? ==> users == ToggleRoleById(old(users), userId) && error == old(error)
      ensures patch.Success? ==> FilteredUsers() == ToggleRoleById(old(FilteredUsers()), userId)
      ensures patch.Failure? ==> users == old(users) && error == Some(UpdateAccessFailed)
      ensures searchTerm == old(searchTerm)
    {
      match patch {
        case Success(_) =>
          SearchRolesToggleById(users, searchTerm, userId);
          users := ToggleRoleById(users, userId);
        case Failure(_) => error := Some(UpdateAccessFailed);
      }
    }

    /** `handleSearchChange`. */
    method HandleSearchChange(value: string)
      modifies this
      ensures searchTerm == value
      ensures users == old(users) && error == old(error)
    {
      searchTerm := value;
    }

    function FilteredUsers(): seq<Role>
      reads this
    {
      SearchRoles(users, searchTerm)
    }

    /** Every match is listed; the empty notice shows only when nothing matches and there is no error. */
    function Rendered(): (v: RoleView)
      reads this
      ensures v.rows == FilteredUsers()
      ensures v.noneFound <==> FilteredUsers() == [] && error.None?
    {
      RoleView(FilteredUsers(), |FilteredUsers()| == 0 && error.None?)
    }
  }
}
