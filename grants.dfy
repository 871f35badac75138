/**
 * Posting an access grant back (`POST /users/auth/account`, `POST /users/auth/roles`):
 * the request body carries only the grant's owner, menu and action, and each grant row
 * labels its button by the `allow` flag.
 */
module Grants {
  import opened Records

  /** The body posted for an account's grant. */
  datatype AccountGrantRequest = AccountGrantRequest(account_uid: string, web_menu_id: int, action_id: int)

  function AccountRequest(g: AccountAccess): (r: AccountGrantRequest)
    ensures r.account_uid == g.account_uid && r.web_menu_id == g.web_menu_id && r.action_id == g.action_id
  {
    AccountGrantRequest(g.account_uid, g.web_menu_id, g.action_id)
  }

  /** The request names the grant, not its state: the names and the `allow` flag are not sent. */
  lemma AccountRequestIgnoresState(g: AccountAccess, allow: bool, menuName: string, actionName: string)
    ensures AccountRequest(g.(allow := allow, web_menu_name := menuName, action_name := actionName)) ==
      AccountRequest(g)
  {
  }

  /** The body posted for a role's grant. */
  datatype RoleGrantRequest = RoleGrantRequest(roles_id: int, web_menu_id: int, action_id: int)

  function RoleRequest(g: RoleAccess): (r: RoleGrantRequest)
    ensures r.roles_id == g.roles_id && r.web_menu_id == g.web_menu_id && r.action_id == g.action_id
  {
    RoleGrantRequest(g.roles_id, g.web_menu_id, g.action_id)
  }

  lemma RoleRequestIgnoresState(g: RoleAccess, allow: bool, menuName: string, actionName: string)
    ensures RoleRequest(g.(allow := allow, web_menu_name := menuName, action_name := actionName)) ==
      RoleRequest(g)
  {
  }

  /** A grant's button text. */
  function GrantLabel(allow: bool): (s: string)
    ensures allow <==> s == "Allowed"
    ensures !allow <==> s == "Denied"
  {
    if allow then "Allowed" else "Denied"
  }
}
