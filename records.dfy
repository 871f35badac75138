/**
 * The records the screens read from the backend, reduced to the fields the modelled
 * logic reads or writes. Identifiers are kept as strings (uids) or integers (ids) as
 * the screens compare them.
 */
module Records {
  import opened Remote

  /** A fleet vehicle (`/masters/fleet`, `/devkits/dashboard/fleet/...`). */
  datatype Fleet = Fleet(
    id: int,
    plat_number: string,
    vehicletype: string,
    branch_name: string,
    driver: string,
    status: string,
    note: string)

  /** A shipment of a delivery order (`received_data` / `unreceived_data`). */
  datatype Shipment = Shipment(shipment_code: string, tracking_status: string)

  /** A branch suggestion (`/masters/branch?keywords=`). */
  datatype Branch = Branch(id: int, name: string)

  /** A web menu (`/menus/web-menu/list`); `parent_id` is `null` for a top-level menu. */
  datatype WebMenu = WebMenu(
    id: int,
    uid: string,
    name: string,
    parent_id: Option<int>,
    parent_name: string,
    order_id: int,
    slug: string,
    url: string,
    is_active: bool)

  /** A user account (`/users/account/list`). */
  datatype Account = Account(
    uid: string,
    username: string,
    first_name: string,
    last_name: string,
    role_name: string,
    is_active: bool)

  /** A role (`/users/roles/list`). */
  datatype Role = Role(id: int, uid: string, name: string, is_active: bool)

  /** One access grant of an account to a menu action (`/users/auth/account`). */
  datatype AccountAccess = AccountAccess(
    uid: string,
    account_uid: string,
    web_menu_id: int,
    web_menu_name: string,
    web_menu_parent_id: Option<int>,
    action_id: int,
    action_name: string,
    allow: bool)

  /** One access grant of a role to a menu action (`/users/auth/roles`). */
  datatype RoleAccess = RoleAccess(
    roles_id: int,
    web_menu_id: int,
    web_menu_name: string,
    action_id: int,
    action_name: string,
    allow: bool)

  /** `{ ...x, is_active: !x.is_active }` for each record kind that has the flag. */
  function FlipWebMenu(m: WebMenu): WebMenu {
    m.(is_active := !m.is_active)
  }

  function FlipAccount(a: Account): Account {
    a.(is_active := !a.is_active)
  }

  function FlipRole(x: Role): Role {
    x.(is_active := !x.is_active)
  }
}
