/**
 * The account access list (users/access-user/index): accounts are loaded once, searched
 * by first or last name, and each row's button toggles the account's access, updating
 * the row once the toggle request succeeds. No pagination.
 */
module AccessUserIndex {
  import opened Remote
  import opened Records
  import opened Toggle
  import opened Searches

  datatype ListView = NoneFound | Table(rows: seq<Account>)

  class AccessUserListPage {
    var users: seq<Account>
    var searchQuery: string
    var error: Option<string>

    constructor ()
      ensures users == [] && searchQuery == "" && error == None
    {
      users, searchQuery, error := [], "", None;
    }

    /** `fetchUsers`: an array at `results.data` replaces the list; anything else is an error. */
    method FetchUsers(response: Fetch<ListField<Account>>)
      modifies this
      ensures response.Success? && response.value.Some? ==>
        users == response.value.value && error == old(error)
      ensures response.Failure? || response.value.None? ==>
        users == old(users) && error == Some(LoadUsersFailed)
      ensures searchQuery == old(searchQuery)
    {
      if response.Success? && response.value.Some? {
        users := response.value.value;
      } else {
        error := Some(LoadUsersFailed);
      }
    }

    /** `handleRevokeAccess(uid)`: after the toggle request succeeds, flip that account. */
    method RevokeAccess(userId: string, patch: Fetch<()>)
      modifies this
      ensures patch.Success? ==> users == ToggleAccountByUid(old(users), userId) && error == old(error)
      ensures patch.Success? ==> FilteredUsers() == ToggleAccountByUid(old(FilteredUsers()), userId)
      ensures patch.Failure? ==> users == old(users) && error == Some(UpdateAccessFailed)
      ensures searchQuery == old(searchQuery)
    {
      match patch {
        case Success(_) =>
          SearchAccountsToggle(users, searchQuery, userId);
          users := ToggleAccountByUid(users, userId);
        case Failure(_) => error := Some(UpdateAccessFailed);
      }
    }

    method SetSearchQuery(value: string)
      modifies this
      ensures searchQuery == value
      ensures users == old(users) && error == old(error)
    {
      searchQuery := value;
    }

    /** `filteredUsers`. */
    function FilteredUsers(): seq<Account>
      reads this
    {
      SearchAccounts(users, searchQuery)
    }

    /** `UserList`: "No users found." exactly when nothing matches, else every match. */
    function Rendered(): (v: ListView)
      reads this
      ensures v == NoneFound <==> FilteredUsers() == []
      ensures v.Table? ==> v.rows == FilteredUsers()
    {
      if |FilteredUsers()| == 0 then NoneFound else Table(FilteredUsers())
    }

    /** With the search box empty every loaded account is listed, in order. */
    lemma EmptySearchListsAll()
      requires searchQuery == "" && users != []
      ensures Rendered() == Table(users)
    {
      SearchAccountsEmpty(users);
    }
  }
}
