/**
 * The access toggle the list screens apply after a successful
 * `PATCH /users/account/{id}/toggle-access`:
 * `prev.map(x => x.key === id ? { ...x, is_active: !x.is_active } : x)`.
 * Screens differ only in the record kind and the key compared.
 */
module Toggle {
  import opened Collections
  import opened Records

  /** Toggle keyed on `uid`, over accounts. */
  function ToggleAccountByUid(users: seq<Account>, userId: string): (r: seq<Account>)
    ensures |r| == |users|
    ensures forall i :: 0 <= i < |users| && users[i].uid == userId ==>
      r[i] == users[i].(is_active := !users[i].is_active)
    ensures forall i :: 0 <= i < |users| && users[i].uid != userId ==> r[i] == users[i]
  {
    MapWhere(users, (u: Account) => u.uid == userId, FlipAccount)
  }

  /** Toggling the same account twice restores the list. */
  lemma ToggleAccountByUidTwice(users: seq<Account>, userId: string)
    ensures ToggleAccountByUid(ToggleAccountByUid(users, userId), userId) == users
  {
    MapWhereTwice(users, (u: Account) => u.uid == userId, FlipAccount);
  }

  /** Toggle keyed on `uid`, over web menus. */
  function ToggleWebMenuByUid(menus: seq<WebMenu>, userId: string): (r: seq<WebMenu>)
    ensures |r| == |menus|
    ensures forall i :: 0 <= i < |menus| && menus[i].uid == userId ==>
      r[i] == menus[i].(is_active := !menus[i].is_active)
    ensures forall i :: 0 <= i < |menus| && menus[i].uid != userId ==> r[i] == menus[i]
  {
    MapWhere(menus, (m: WebMenu) => m.uid == userId, FlipWebMenu)
  }

  /** Toggling the same web menu twice restores the list. */
  lemma ToggleWebMenuByUidTwice(menus: seq<WebMenu>, userId: string)
    ensures ToggleWebMenuByUid(ToggleWebMenuByUid(menus, userId), userId) == menus
  {
    MapWhereTwice(menus, (m: WebMenu) => m.uid == userId, FlipWebMenu);
  }

  /** Toggle keyed on `uid`, over roles. */
  function ToggleRoleByUid(roles: seq<Role>, userId: string): (r: seq<Role>)
    ensures |r| == |roles|
    ensures forall i :: 0 <= i < |roles| && roles[i].uid == userId ==>
      r[i] == roles[i].(is_active := !roles[i].is_active)
    ensures forall i :: 0 <= i < |roles| && roles[i].uid != userId ==> r[i] == roles[i]
  {
    MapWhere(roles, (x: Role) => x.uid == userId, FlipRole)
  }

  /** Toggling the same role uid twice restores the list. */
  lemma ToggleRoleByUidTwice(roles: seq<Role>, userId: string)
    ensures ToggleRoleByUid(ToggleRoleByUid(roles, userId), userId) == roles
  {
    MapWhereTwice(roles, (x: Role) => x.uid == userId, FlipRole);
  }

  /** Toggle keyed on `id` (not `uid`), over roles. */
  function ToggleRoleById(roles: seq<Role>, userId: int): (r: seq<Role>)
    ensures |r| == |roles|
    ensures forall i :: 0 <= i < |roles| && roles[i].id == userId ==>
      r[i] == roles[i].(is_active := !roles[i].is_active)
    ensures forall i :: 0 <= i < |roles| && roles[i].id != userId ==> r[i] == roles[i]
  {
    MapWhere(roles, (x: Role) => x.id == userId, FlipRole)
  }

  /** Toggling the same role id twice restores the list. */
  lemma ToggleRoleByIdTwice(roles: seq<Role>, userId: int)
    ensures ToggleRoleById(ToggleRoleById(roles, userId), userId) == roles
  {
    MapWhereTwice(roles, (x: Role) => x.id == userId, FlipRole);
  }

  /** The access cell and the toggle button of a row, by its `is_active` flag. */
  function AccessStatus(is_active: bool): (s: string)
    ensures is_active <==> s == "Granted"
    ensures !is_active <==> s == "Revoked"
  {
    if is_active then "Granted" else "Revoked"
  }

  function AccessButton(is_active: bool): (s: string)
    ensures is_active <==> s == "Revoke Access"
    ensures !is_active <==> s == "Grant Access"
  {
    if is_active then "Revoke Access" else "Grant Access"
  }
}
