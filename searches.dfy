/**
 * The client-side searches of the list screens: `list.filter(x => field(x).toLowerCase()
 * .includes(query.toLowerCase()) [|| ...])`, one per record kind and field choice.
 * Each keeps exactly the matching records, each as often as before, in list order.
 */
module Searches {
  import opened Text
  import opened Collections
  import opened Records
  import opened Toggle

  /** An account matches on its first name or its last name. */
  predicate AccountMatches(a: Account, query: string) {
    MatchesIgnoringCase(a.first_name, query) || MatchesIgnoringCase(a.last_name, query)
  }

  function SearchAccounts(accounts: seq<Account>, query: string): (r: seq<Account>)
    ensures forall a :: a in r <==> a in accounts && AccountMatches(a, query)
    ensures forall a :: multiset(r)[a] == if AccountMatches(a, query) then multiset(accounts)[a] else 0
  {
    Filter(accounts, (a: Account) => AccountMatches(a, query))
  }

  /** The empty query (the initial search box) lists every account, in order. */
  lemma SearchAccountsEmpty(accounts: seq<Account>)
    ensures SearchAccounts(accounts, "") == accounts
  {
    forall a | a in accounts ensures AccountMatches(a, "") {
      MatchesEmptyQuery(a.first_name);
    }
    FilterAll(accounts, (a: Account) => AccountMatches(a, ""));
  }

  /** A role and a web menu match on their name. */
  function SearchRoles(roles: seq<Role>, query: string): (r: seq<Role>)
    ensures forall x :: x in r <==> x in roles && MatchesIgnoringCase(x.name, query)
    ensures forall x :: multiset(r)[x] == if MatchesIgnoringCase(x.name, query) then multiset(roles)[x] else 0
  {
    Filter(roles, (x: Role) => MatchesIgnoringCase(x.name, query))
  }

  function SearchWebMenus(menus: seq<WebMenu>, query: string): (r: seq<WebMenu>)
    ensures forall m :: m in r <==> m in menus && MatchesIgnoringCase(m.name, query)
    ensures forall m :: multiset(r)[m] == if MatchesIgnoringCase(m.name, query) then multiset(menus)[m] else 0
  {
    Filter(menus, (m: WebMenu) => MatchesIgnoringCase(m.name, query))
  }

  /** The empty query lists every role, and every web menu, in order. */
  lemma SearchRolesEmpty(roles: seq<Role>)
    ensures SearchRoles(roles, "") == roles
  {
    forall x | x in roles ensures MatchesIgnoringCase(x.name, "") {
      MatchesEmptyQuery(x.name);
    }
    FilterAll(roles, (x: Role) => MatchesIgnoringCase(x.name, ""));
  }

  lemma SearchWebMenusEmpty(menus: seq<WebMenu>)
    ensures SearchWebMenus(menus, "") == menus
  {
    forall m | m in menus ensures MatchesIgnoringCase(m.name, "") {
      MatchesEmptyQuery(m.name);
    }
    FilterAll(menus, (m: WebMenu) => MatchesIgnoringCase(m.name, ""));
  }

  /** An access grant matches on its menu name or its action name. */
  predicate AccountAccessMatches(g: AccountAccess, query: string) {
    MatchesIgnoringCase(g.web_menu_name, query) || MatchesIgnoringCase(g.action_name, query)
  }

  function SearchAccountAccess(grants: seq<AccountAccess>, query: string): (r: seq<AccountAccess>)
    ensures forall g :: g in r <==> g in grants && AccountAccessMatches(g, query)
    ensures forall g :: multiset(r)[g] == if AccountAccessMatches(g, query) then multiset(grants)[g] else 0
  {
    Filter(grants, (g: AccountAccess) => AccountAccessMatches(g, query))
  }

  lemma SearchAccountAccessEmpty(grants: seq<AccountAccess>)
    ensures SearchAccountAccess(grants, "") == grants
  {
    forall g | g in grants ensures AccountAccessMatches(g, "") {
      MatchesEmptyQuery(g.web_menu_name);
    }
    FilterAll(grants, (g: AccountAccess) => AccountAccessMatches(g, ""));
  }

  predicate RoleAccessMatches(g: RoleAccess, query: string) {
    MatchesIgnoringCase(g.web_menu_name, query) || MatchesIgnoringCase(g.action_name, query)
  }

  function SearchRoleAccess(grants: seq<RoleAccess>, query: string): (r: seq<RoleAccess>)
    ensures forall g :: g in r <==> g in grants && RoleAccessMatches(g, query)
    ensures forall g :: multiset(r)[g] == if RoleAccessMatches(g, query) then multiset(grants)[g] else 0
  {
    Filter(grants, (g: RoleAccess) => RoleAccessMatches(g, query))
  }

  /*
   * A successful toggle shows up in place in the searched list: searching the toggled list
   * gives the toggled search result, because the searched fields are not the flag.
   */

  lemma SearchAccountsToggle(accounts: seq<Account>, query: string, userId: string)
    ensures SearchAccounts(ToggleAccountByUid(accounts, userId), query) ==
      ToggleAccountByUid(SearchAccounts(accounts, query), userId)
  {
    FilterMapWhere(accounts, (u: Account) => u.uid == userId, FlipAccount,
      (a: Account) => AccountMatches(a, query));
  }

  lemma SearchRolesToggleById(roles: seq<Role>, query: string, userId: int)
    ensures SearchRoles(ToggleRoleById(roles, userId), query) ==
      ToggleRoleById(SearchRoles(roles, query), userId)
  {
    FilterMapWhere(roles, (x: Role) => x.id == userId, FlipRole,
      (x: Role) => MatchesIgnoringCase(x.name, query));
  }

  lemma SearchRolesToggleByUid(roles: seq<Role>, query: string, userId: string)
    ensures SearchRoles(ToggleRoleByUid(roles, userId), query) ==
      ToggleRoleByUid(SearchRoles(roles, query), userId)
  {
    FilterMapWhere(roles, (x: Role) => x.uid == userId, FlipRole,
      (x: Role) => MatchesIgnoringCase(x.name, query));
  }

  lemma SearchWebMenusToggle(menus: seq<WebMenu>, query: string, userId: string)
    ensures SearchWebMenus(ToggleWebMenuByUid(menus, userId), query) ==
      ToggleWebMenuByUid(SearchWebMenus(menus, query), userId)
  {
    FilterMapWhere(menus, (m: WebMenu) => m.uid == userId, FlipWebMenu,
      (m: WebMenu) => MatchesIgnoringCase(m.name, query));
  }
}
