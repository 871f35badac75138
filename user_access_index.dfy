/**
 * The access grants of the account in the route (users/user/index): the grants are
 * searched by menu or action name and every match is listed, with no pagination.
 * A grant's button posts `Grants.AccountRequest` of that grant.
 */
module UserAccessIndex {
  import opened Records
  import opened Searches

  datatype ListView = NoneFound | Table(rows: seq<AccountAccess>)

  /** `UserList` over `filteredUsers`: "No users found." exactly when no grant matches. */
  function Rendered(users: seq<AccountAccess>, query: string): (v: ListView)
    ensures v == NoneFound <==> SearchAccountAccess(users, query) == []
    ensures v.Table? ==> v.rows == SearchAccountAccess(users, query)
  {
    var filtered := SearchAccountAccess(users, query);
    if |filtered| == 0 then NoneFound else Table(filtered)
  }

  /** With the search box empty every loaded grant is listed, in order. */
  lemma EmptyQueryListsAll(users: seq<AccountAccess>)
    requires users != []
    ensures Rendered(users, "") == Table(users)
  {
    SearchAccountAccessEmpty(users);
  }
}
