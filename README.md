# Fleet dashboard: the collection-view model

The Fleet dashboard is a React CRUD front end for a courier company's fleet, users, roles
and web menus. Most of its screens are HTTP calls plus JSX. Inside them the same small
piece of state logic keeps coming back:

- a case-insensitive substring search over one or more fields of the loaded records;
- a client-side paginator: a 1-based `currentPage`, `Math.ceil(n / size)` pages, and the
  slice `[(p-1)*size, p*size)`, with guarded Previous/Next buttons;
- a keyed flag toggle (`xs.map(u => u.key === id ? {...u, is_active: !u.is_active} : u)`),
  applied only after the backend call succeeds;
- the sidebar's parent/child menu visibility;
- a few pure transforms: the merge of delivered and undelivered shipments, the dashboard
  chart rows, the courier option labels, and the user-submit payload.

This project models that logic in Dafny and proves what each screen promises about it.

Shared modules:
- `Text`: ASCII `toLowerCase` and `includes`.
- `Collections`: `filter` and the keyed `map`.
- `Paging`: page count, slice, Previous/Next, and row numbers.
- `Remote`: what a screen receives from the network.
- `Records`: the backend records.
- `Toggle`: the per-record keyed toggles.
- `Searches`: the per-record search predicates.
- `Grants`: the access-grant request bodies.

Each screen whose handlers update React state is a `class`. Its fields are the screen's
`useState` variables. Its handlers and effects are methods that take the outcome of the
network request as a parameter (`Fetch<T>`: `Failure(message)` or `Success(value)`).
Derived values (`filteredUsers`, `totalPages`, the visible page) are functions of the
fields. The two screens whose logic is pure expressions are plain functions:
users/user/index and dashboard/fleet.

The screens differ in when they return to page 1, and the model follows each one. Some
never return to page 1 on a search. There the lemmas `WebMenuList.WebMenuPage.StrandedPage`
and `AccountList.AccountListPage.Stranded` show that a narrowing search can leave the page
past the end.
- masters/fleet resets when Search is pressed.
- The delivery-order screen resets on every keystroke.
- dashboard/list resets when a branch's fleet loads.
- The web-menu list, the user list and both access-detail screens never reset.

## Model

| member | source | states |
|---|---|---|
| Text.Lower | src/components/apps-library/masters/fleet/index.js:39 | `toLowerCase` keeps the length and lowers each ASCII capital, leaving every other character |
| Text.LowerIdempotent | src/components/apps-library/masters/fleet/index.js:39-44 | lowering twice equals lowering once, so lowering both sides of a search is stable |
| Text.Contains | src/components/apps-library/masters/fleet/index.js:41 | `includes` never holds for a query longer than the field, and always holds for the empty query |
| Text.ContainsAt | src/components/apps-library/masters/fleet/index.js:41 | `includes` holds exactly when the query occurs at some index of the field |
| Text.ContainsEmpty | src/components/apps-library/menu/webmenu/list/index.js:64-68 | every field includes the empty query |
| Text.MatchesLoweredQuery | src/components/apps-library/dashboard/kurir/deliveryorder/index.js:51-56 | matching against an already lowered query is the same as matching against the raw query |
| Collections.Filter | src/components/apps-library/masters/fleet/index.js:40-45 | `filter` keeps exactly the passing records, each as often as before, and nothing else |
| Collections.FilterAppend | src/components/apps-library/masters/fleet/index.js:40-45 | the filter distributes over concatenation, so the original order is kept |
| Collections.FilterIdempotent | src/components/apps-library/masters/fleet/index.js:40-45 | filtering a filtered list again changes nothing |
| Collections.MapWhere | src/components/apps-library/users/access-user/index.js:114-118 | the keyed `map` keeps the length, replaces every hit element by its update, and keeps every other element |
| Collections.MapWhereTwice | src/components/apps-library/users/access-user/index.js:114-118 | an update that undoes itself and keeps the key, applied twice, restores the list |
| Collections.FilterMapWhere | src/components/apps-library/users/access-user/index.js:114-129 | a filter that ignores the toggled flag commutes with the keyed update |
| Collections.MapWhereKeepsUnhit | src/components/user-control/nav/index.js:43-44 | a filter that only keeps unhit elements does not see the keyed update |
| Paging.TotalPages | src/components/apps-library/masters/fleet/index.js:48 | `Math.ceil(n / size)` is the fewest pages of `size` that hold `n` rows, and 0 exactly for no rows |
| Paging.Page | src/components/apps-library/masters/fleet/index.js:59-61 | the slice holds at most `size` rows, the rows from `(p-1)*size` on in order, and is empty past the end |
| Paging.PageInRangeNonEmpty | src/components/apps-library/dashboard/list/index.js:68-71 | a page within `1..max(1, totalPages)` of a non-empty list shows at least one row |
| Paging.PageBeyondEmpty | src/components/apps-library/menu/webmenu/list/index.js:91-96 | a page past `totalPages` is empty |
| Paging.ConcatAllPages | src/components/apps-library/masters/fleet/index.js:59-61 | concatenating pages `1..totalPages` gives back the list exactly |
| Paging.ConcatFirstPages | src/components/apps-library/masters/fleet/index.js:59-61 | the first `m` pages concatenate to the first `m*size` rows |
| Paging.RowOnPage | src/components/apps-library/users/access-role/detail/index.js:142-147 | row `j` is on page `j/size+1`, within range, at position `j%size` |
| Paging.EndsPastLast | src/components/apps-library/users/user/list.js:157 | page `p` ends at or past the last row exactly when `p >= totalPages` |
| Paging.Prev | src/components/apps-library/masters/fleet/index.js:52-53 | Previous steps back one page from any page above 1 and otherwise stays; it never moves forward |
| Paging.Next | src/components/apps-library/masters/fleet/index.js:56-57 | Next steps forward one page, staying within `totalPages`, from any page before the last, and otherwise stays; it never moves back |
| Paging.NavigationKeepsRange | src/components/apps-library/masters/fleet/index.js:51-57 | Previous and Next keep the page within `1..max(1, totalPages)` |
| Paging.NavigationSteps | src/components/apps-library/masters/fleet/index.js:51-57 | Previous moves back one page, and is a no-op exactly on page 1 or below; Next moves forward one page, and is a no-op exactly on the last page or later |
| Paging.RowNumberIsPosition | src/components/apps-library/dashboard/kurir/deliveryorder/index.js:112 | the shown number `(p-1)*size + index + 1` is the row's 1-based position in the whole list |
| Remote.OrDefault | src/components/apps-library/users/user/detail.js:45-48 | a string with a fallback: the string when present and non-empty, else the fallback |
| Remote.NumberOrEmpty | src/components/apps-library/users/user/detail.js:48 | a number with an empty-string fallback: the number unless it is absent or 0 |
| Toggle.ToggleAccountByUid | src/components/apps-library/users/access-user/index.js:114-118 | flips `is_active` exactly on the accounts whose uid matches; every other account is unchanged and the length is kept |
| Toggle.ToggleAccountByUidTwice | src/components/apps-library/users/access-user/index.js:114-118 | toggling the same uid twice restores the list |
| Toggle.ToggleWebMenuByUid | src/components/apps-library/menu/webmenu/list/index.js:53-57 | flips `is_active` exactly on the menus whose uid matches |
| Toggle.ToggleWebMenuByUidTwice | src/components/apps-library/menu/webmenu/list/index.js:53-57 | toggling twice restores the list |
| Toggle.ToggleRoleByUid | src/components/apps-library/users/access-role/list/index.js:50-54 | flips `is_active` exactly on the roles whose uid matches |
| Toggle.ToggleRoleByUidTwice | src/components/apps-library/users/access-role/list/index.js:50-54 | toggling twice restores the list |
| Toggle.ToggleRoleById | src/components/apps-library/users/role/index.js:48-52 | flips `is_active` exactly on the roles whose numeric `id` matches; every other role is unchanged |
| Toggle.ToggleRoleByIdTwice | src/components/apps-library/users/role/index.js:48-52 | toggling the same id twice restores the list |
| Toggle.AccessStatus | src/components/apps-library/users/access-user/index.js:49 | "Granted" exactly for an active record, "Revoked" exactly for an inactive one |
| Toggle.AccessButton | src/components/apps-library/users/access-user/index.js:60 | "Revoke Access" exactly for an active record, "Grant Access" exactly for an inactive one |
| Searches.SearchAccounts | src/components/apps-library/users/access-user/index.js:125-129 | keeps exactly the accounts whose first or last name includes the query (ignoring case), with multiplicities |
| Searches.SearchAccountsEmpty | src/components/apps-library/users/user/list.js:149-153 | the empty query keeps every account, in order |
| Searches.SearchRoles | src/components/apps-library/users/role/index.js:63-65 | keeps exactly the roles whose name includes the query, ignoring case |
| Searches.SearchRolesEmpty | src/components/apps-library/users/role/index.js:63-65 | the empty query keeps every role, in order |
| Searches.SearchWebMenus | src/components/apps-library/menu/webmenu/list/index.js:64-68 | keeps exactly the menus whose name includes the query, ignoring case |
| Searches.SearchWebMenusEmpty | src/components/apps-library/menu/webmenu/list/index.js:64-68 | the empty query keeps every menu, in order |
| Searches.SearchAccountAccess | src/components/apps-library/users/access-user/detail/index.js:117-121 | keeps exactly the grants whose menu or action name includes the query, ignoring case |
| Searches.SearchAccountAccessEmpty | src/components/apps-library/users/user/index.js:78-82 | the empty query keeps every grant, in order |
| Searches.SearchRoleAccess | src/components/apps-library/users/access-role/detail/index.js:115-119 | keeps exactly the role grants whose menu or action name includes the query, ignoring case |
| Searches.SearchAccountsToggle | src/components/apps-library/users/access-user/index.js:114-129 | searching the toggled list equals toggling the searched list |
| Searches.SearchRolesToggleById | src/components/apps-library/users/role/index.js:48-65 | the same, for roles toggled by id |
| Searches.SearchRolesToggleByUid | src/components/apps-library/users/access-role/list/index.js:50-65 | the same, for roles toggled by uid |
| Searches.SearchWebMenusToggle | src/components/apps-library/menu/webmenu/list/index.js:53-68 | the same, for web menus |
| Grants.AccountRequest | src/components/apps-library/users/access-user/detail/index.js:94-98 | the posted body carries exactly the row's account uid, menu id and action id |
| Grants.AccountRequestIgnoresState | src/components/apps-library/users/user/index.js:55-59 | the body does not depend on the row's current permission or its names |
| Grants.RoleRequest | src/components/apps-library/users/access-role/detail/index.js:92-96 | the posted body carries exactly the row's role id, menu id and action id |
| Grants.RoleRequestIgnoresState | src/components/apps-library/users/access-role/detail/index.js:92-96 | the body does not depend on the row's current permission or its names |
| Grants.GrantLabel | src/components/apps-library/users/access-user/detail/index.js:210 | "Allowed" exactly for an allowed grant, "Denied" exactly for a denied one |
| FleetMaster.SearchFleets | src/components/apps-library/masters/fleet/index.js:38-45 | keeps exactly the vehicles whose plate, type, branch or driver includes the term, ignoring case |
| FleetMaster.SearchFleetsAppend | src/components/apps-library/masters/fleet/index.js:40-45 | the search keeps the original order |
| FleetMaster.SearchFleetsEmptyTerm | src/components/apps-library/masters/fleet/index.js:40-45 | the empty term keeps every vehicle |
| FleetMaster.FleetTable.constructor | src/components/apps-library/masters/fleet/index.js:6-12 | empty lists, loading, page 1 of 1 |
| FleetMaster.FleetTable.Load | src/components/apps-library/masters/fleet/index.js:16-32 | success stores the list in both the data and the filtered list and counts its pages; failure sets the fixed error; loading ends either way |
| FleetMaster.FleetTable.SearchChange | src/components/apps-library/masters/fleet/index.js:34-36 | typing changes only the search term |
| FleetMaster.FleetTable.HandleSearch | src/components/apps-library/masters/fleet/index.js:38-49 | the filtered list becomes the search of the whole list, the page returns to 1 and `totalPages` is recounted |
| FleetMaster.FleetTable.HandlePrevPage | src/components/apps-library/masters/fleet/index.js:51-53 | the page becomes `Prev(page)` and the range invariant holds |
| FleetMaster.FleetTable.HandleNextPage | src/components/apps-library/masters/fleet/index.js:55-57 | the page becomes `Next(page, totalPages)` and the range invariant holds |
| FleetMaster.FleetTable.CurrentItems | src/components/apps-library/masters/fleet/index.js:59-61 | exactly the slice `filteredData[(p-1)*10 .. p*10)` clamped to the list: ten vehicles, fewer on the last page, none past the end |
| DeliveryOrder.MergeShipments | src/components/apps-library/dashboard/kurir/deliveryorder/index.js:33-35 | the received shipments, then the unreceived ones; a missing part counts as empty |
| DeliveryOrder.SearchShipments | src/components/apps-library/dashboard/kurir/deliveryorder/index.js:54-56 | keeps exactly the shipments whose lowered code includes the query |
| DeliveryOrder.SearchShipmentsIgnoresCase | src/components/apps-library/dashboard/kurir/deliveryorder/index.js:51-56 | searching with the lowered input is a case-insensitive search for the input |
| DeliveryOrder.SearchShipmentsAppend | src/components/apps-library/dashboard/kurir/deliveryorder/index.js:54-56 | the search keeps the original order |
| DeliveryOrder.DeliveryDetails.Load | src/components/apps-library/dashboard/kurir/deliveryorder/index.js:16-48 | a missing token sets the token error; a failure stores its message; success stores the merge in both lists; loading ends and the page is kept |
| DeliveryOrder.DeliveryDetails.HandleSearch | src/components/apps-library/dashboard/kurir/deliveryorder/index.js:50-59 | stores the lowered query, filters the whole list with it and returns to page 1 |
| DeliveryOrder.DeliveryDetails.HandlePrevPage | src/components/apps-library/dashboard/kurir/deliveryorder/index.js:69-71 | the page becomes `Prev(page)` |
| DeliveryOrder.DeliveryDetails.HandleNextPage | src/components/apps-library/dashboard/kurir/deliveryorder/index.js:73-75 | the page becomes `Next(page, totalPages)` |
| DeliveryOrder.DeliveryDetails.PaginatedDetails | src/components/apps-library/dashboard/kurir/deliveryorder/index.js:65-67 | exactly the slice `filteredDetails[startIndex .. startIndex+10)` clamped to the list: ten shipments, fewer on the last page, none past the end |
| DeliveryOrder.DeliveryDetails.RowNumber | src/components/apps-library/dashboard/kurir/deliveryorder/index.js:112 | the number beside a row is that row's 1-based position in the filtered list |
| DeliveryOrder.DeliveryDetails.RenderedRows | src/components/apps-library/dashboard/kurir/deliveryorder/index.js:77-78 | no rows while loading or after an error with a message; otherwise the current page |
| BranchFleetList.FilterByPlate | src/components/apps-library/dashboard/list/index.js:64-66 | keeps exactly the vehicles whose plate includes the filter, ignoring case |
| BranchFleetList.FilterByEmptyPlate | src/components/apps-library/dashboard/list/index.js:8 | with the filter at its never-changed empty value, every vehicle is kept in order |
| BranchFleetList.BranchFleetTable.FilteredIsFleet | src/components/apps-library/dashboard/list/index.js:64-68 | `filteredData` is the fetched fleet, and `totalPages` is counted on it |
| BranchFleetList.BranchFleetTable.KeywordChange | src/components/apps-library/dashboard/list/index.js:91 | typing changes only the keyword |
| BranchFleetList.LooksUp | src/components/apps-library/dashboard/list/index.js:17 | an empty keyword, or one under three characters, is not looked up; any other keyword is |
| BranchFleetList.BranchFleetTable.KeywordEffect | src/components/apps-library/dashboard/list/index.js:16-34 | a keyword under three characters clears the suggestions and makes no request; otherwise the response fills the suggestions (empty when absent) or a failure sets the branch error |
| BranchFleetList.BranchFleetTable.SuggestionClick | src/components/apps-library/dashboard/list/index.js:57-62 | empties the suggestions, and sets the keyword and the branch filter to the name and the branch data to that one branch |
| BranchFleetList.BranchFleetTable.FleetEffect | src/components/apps-library/dashboard/list/index.js:36-55 | nothing happens for an empty branch filter; success replaces the fleet (empty when absent) and returns to page 1; failure sets the fleet error; loading ends |
| BranchFleetList.BranchFleetTable.HandleNextPage | src/components/apps-library/dashboard/list/index.js:73-75 | the page becomes `Next(page, totalPages)` and stays in range |
| BranchFleetList.BranchFleetTable.HandlePrevPage | src/components/apps-library/dashboard/list/index.js:77-79 | the page becomes `Prev(page)` and stays in range |
| BranchFleetList.BranchFleetTable.CurrentData | src/components/apps-library/dashboard/list/index.js:69-71 | exactly the slice `fleetData[(p-1)*10 .. p*10)` clamped to the list, and never empty for a non-empty fleet |
| BranchFleetList.BranchFleetTable.RenderedRows | src/components/apps-library/dashboard/list/index.js:110-143 | the loading text, then the error, replace the table; otherwise the current page |
| WebMenuList.WebMenuPage.FetchUsers | src/components/apps-library/menu/webmenu/list/index.js:22-42 | an array replaces the list; anything else keeps it and sets "Failed to load users" |
| WebMenuList.WebMenuPage.RevokeAccess | src/components/apps-library/menu/webmenu/list/index.js:44-62 | after a successful patch the list, and also the filtered list, is toggled by uid; a failure keeps the list and sets the error |
| WebMenuList.WebMenuPage.SetSearchQuery | src/components/apps-library/menu/webmenu/list/index.js:80-83 | changes only the query, and not the page |
| WebMenuList.WebMenuPage.HandlePrevPage | src/components/apps-library/menu/webmenu/list/index.js:98-102 | the page becomes `Prev(page)` |
| WebMenuList.WebMenuPage.HandleNextPage | src/components/apps-library/menu/webmenu/list/index.js:105-109 | the page becomes `Next(page, totalPages)` |
| WebMenuList.WebMenuPage.PaginatedData | src/components/apps-library/menu/webmenu/list/index.js:93-96 | exactly the slice `filtered[(p-1)*10 .. p*10)` clamped to the matches: ten menus, fewer on the last page, none past the end |
| WebMenuList.WebMenuPage.RowNumber | src/components/apps-library/menu/webmenu/list/index.js:139 | the number beside a row is its 1-based position among the matches |
| WebMenuList.WebMenuPage.Rendered | src/components/apps-library/menu/webmenu/list/index.js:113-115 | "No webmenus found." exactly when nothing matches; otherwise the current page |
| WebMenuList.WebMenuPage.NextDisabled | src/components/apps-library/menu/webmenu/list/index.js:177 | Next is disabled exactly on page `totalPages`, where the Next handler does not move |
| WebMenuList.WebMenuPage.NextDisabledInRange | src/components/apps-library/menu/webmenu/list/index.js:105-177 | on a page in range, Next is enabled exactly when its handler moves to the following page |
| WebMenuList.WebMenuPage.StrandedPage | src/components/apps-library/menu/webmenu/list/index.js:80-115 | a page past the end after a search shows an empty table although matches exist; Next is enabled there but does nothing |
| AccountList.AccountListPage.Mount | src/components/apps-library/users/user/list.js:100-128 | without a route uid the account list is loaded (array or error); with one nothing in the list state changes |
| AccountList.AccountListPage.SetSearchQuery | src/components/apps-library/users/user/list.js:12 | changes only the query, and not the page |
| AccountList.AccountListPage.Accepts | src/components/apps-library/users/user/list.js:157 | the guard of `paginate` accepts only pages `1..totalPages`, so nothing at all when no user matches |
| AccountList.AccountListPage.PrevDisabled | src/components/apps-library/users/user/list.js:66 | Previous is disabled exactly on page 1, whose predecessor `paginate` refuses |
| AccountList.AccountListPage.NextDisabled | src/components/apps-library/users/user/list.js:78 | Next is disabled exactly when the current page ends at or past the last match, and then the following page is empty |
| AccountList.AccountListPage.Paginate | src/components/apps-library/users/user/list.js:156-160 | moves to the page exactly when `0 < n <= totalPages`, otherwise stays |
| AccountList.AccountListPage.CurrentUsers | src/components/apps-library/users/user/list.js:23-25 | exactly the slice `filtered[p*5-5 .. p*5)` clamped to the matches: five accounts, fewer on the last page, none past the end |
| AccountList.AccountListPage.RowNumber | src/components/apps-library/users/user/list.js:50 | the shown number is the row's 1-based position among the matches |
| AccountList.AccountListPage.NextDisabledIffRefused | src/components/apps-library/users/user/list.js:78 | Next is disabled exactly when `paginate(p+1)` would be refused |
| AccountList.AccountListPage.PrevDisabledIffRefused | src/components/apps-library/users/user/list.js:65-66 | on a page in range, Previous is disabled exactly when `paginate(p-1)` would be refused |
| AccountList.AccountListPage.Stranded | src/components/apps-library/users/user/list.js:65-78 | two or more pages past the end: no rows, Next disabled, Previous enabled, and both neighbours refused |
| AccountList.AccountListPage.Rendered | src/components/apps-library/users/user/list.js:188-195 | the edit placeholder exactly when a uid is present; otherwise "No users found." exactly when nothing matches, else the current page |
| AccessUserDetail.ToForm | src/components/apps-library/users/access-user/detail/index.js:50-55 | each profile field, or "" when missing or falsy |
| AccessUserDetail.ToFormPresent | src/components/apps-library/users/access-user/detail/index.js:50-55 | a profile with every field present and truthy is shown unchanged |
| AccessUserDetail.AccessUserPage.FetchUserData | src/components/apps-library/users/access-user/detail/index.js:34-65 | a profile fills the form; no profile or a failure sets "Failed to load user data."; loading ends |
| AccessUserDetail.AccessUserPage.FetchAccessUser | src/components/apps-library/users/access-user/detail/index.js:67-89 | an array replaces the grants; anything else keeps them and sets "Failed to load users" |
| AccessUserDetail.AccessUserPage.RevokeAccess | src/components/apps-library/users/access-user/detail/index.js:91-115 | posts `AccountRequest(grant)`; reloads exactly on success; a failure sets the error; nothing else changes |
| AccessUserDetail.AccessUserPage.SetSearchQuery | src/components/apps-library/users/access-user/detail/index.js:133-135 | changes only the query, and not the page |
| AccessUserDetail.AccessUserPage.HandlePrevPage | src/components/apps-library/users/access-user/detail/index.js:151-155 | the page becomes `Prev(page)` |
| AccessUserDetail.AccessUserPage.HandleNextPage | src/components/apps-library/users/access-user/detail/index.js:158-162 | the page becomes `Next(page, totalPages)` |
| AccessUserDetail.AccessUserPage.PaginatedData | src/components/apps-library/users/access-user/detail/index.js:144-149 | exactly the slice `filtered[(p-1)*10 .. p*10)` clamped to the matches: ten grants, fewer on the last page, none past the end |
| AccessUserDetail.AccessUserPage.Rendered | src/components/apps-library/users/access-user/detail/index.js:165-167 | "No users found." exactly when nothing matches; otherwise the current page |
| AccessUserDetail.AccessUserPage.PagesCoverFiltered | src/components/apps-library/users/access-user/detail/index.js:144-149 | paging through all pages shows every matching grant once, in order |
| AccessRoleDetail.ToForm | src/components/apps-library/users/access-role/detail/index.js:49-52 | the role's id and name, or "" when missing or falsy |
| AccessRoleDetail.AccessRolePage.FetchRoleData | src/components/apps-library/users/access-role/detail/index.js:33-62 | a role fills the form; no role or a failure sets the error; loading ends |
| AccessRoleDetail.AccessRolePage.FetchAccessRole | src/components/apps-library/users/access-role/detail/index.js:65-87 | an array replaces the grants; anything else keeps them and sets "Failed to load users" |
| AccessRoleDetail.AccessRolePage.RevokeAccess | src/components/apps-library/users/access-role/detail/index.js:89-113 | posts `RoleRequest(grant)`; reloads exactly on success; a failure sets "Failed to update access role" |
| AccessRoleDetail.AccessRolePage.SetSearchQuery | src/components/apps-library/users/access-role/detail/index.js:131-134 | changes only the query, and not the page |
| AccessRoleDetail.AccessRolePage.HandlePrevPage | src/components/apps-library/users/access-role/detail/index.js:149-153 | the page becomes `Prev(page)` |
| AccessRoleDetail.AccessRolePage.HandleNextPage | src/components/apps-library/users/access-role/detail/index.js:156-160 | the page becomes `Next(page, totalPages)` |
| AccessRoleDetail.AccessRolePage.PaginatedData | src/components/apps-library/users/access-role/detail/index.js:142-147 | exactly the slice `filtered[(p-1)*10 .. p*10)` clamped to the matches: ten grants, fewer on the last page, none past the end |
| AccessRoleDetail.AccessRolePage.Rendered | src/components/apps-library/users/access-role/detail/index.js:163-164 | "No Access Role found." exactly when nothing matches; otherwise the current page |
| AccessRoleDetail.AccessRolePage.GrantOnPage | src/components/apps-library/users/access-role/detail/index.js:142-147 | every matching grant is on the page its index gives, and that page is in range |
| AccessUserIndex.AccessUserListPage.FetchUsers | src/components/apps-library/users/access-user/index.js:83-103 | an array replaces the list; anything else keeps it and sets the load error |
| AccessUserIndex.AccessUserListPage.RevokeAccess | src/components/apps-library/users/access-user/index.js:105-123 | only a successful patch toggles the list by uid, and the shown list with it; a failure keeps the list and sets the error |
| AccessUserIndex.AccessUserListPage.Rendered | src/components/apps-library/users/access-user/index.js:18-19 | "No users found." exactly when nothing matches; otherwise every match |
| AccessUserIndex.AccessUserListPage.EmptySearchListsAll | src/components/apps-library/users/access-user/index.js:125-129 | with an empty search box every loaded account is listed in order |
| RoleIndex.RoleListPage.FetchUsers | src/components/apps-library/users/role/index.js:15-36 | an array replaces the list; anything else keeps it and sets the load error |
| RoleIndex.RoleListPage.RevokeAccess | src/components/apps-library/users/role/index.js:38-57 | only a successful patch toggles by numeric id, and the shown list with it; a failure keeps the list and sets the error |
| RoleIndex.RoleListPage.HandleSearchChange | src/components/apps-library/users/role/index.js:59-61 | changes only the search term |
| RoleIndex.RoleListPage.Rendered | src/components/apps-library/users/role/index.js:87-111 | every match is listed; the empty notice shows exactly when nothing matches and there is no error |
| AccessRoleList.AccessRoleListPage.FetchUsers | src/components/apps-library/users/access-role/list/index.js:19-39 | an array replaces the list; anything else keeps it and sets the load error |
| AccessRoleList.AccessRoleListPage.RevokeAccess | src/components/apps-library/users/access-role/list/index.js:41-59 | only a successful patch toggles by uid, and the shown list with it; a failure keeps the list and sets the error |
| AccessRoleList.AccessRoleListPage.Rendered | src/components/apps-library/users/access-role/list/index.js:88-89 | "No users found." exactly when nothing matches; otherwise every match |
| AccessRoleList.AccessRoleListPage.RowNumber | src/components/apps-library/users/access-role/list/index.js:110 | `index + 1` is the row's position among the matches |
| UserPageTest.UserAccessPage.FetchUsers | src/userpagetest.js:12-33 | an array replaces the list; a non-array or a failure keeps it and sets the load error |
| UserPageTest.UserAccessPage.RevokeAccess | src/userpagetest.js:35-76 | only a successful patch toggles by uid, and then every matching row's button reads the opposite way while every other row's label is kept; a failure keeps the list and sets the error |
| UserPageTest.ToggleFlipsButtons | src/userpagetest.js:44-76 | after a toggle a row's button label changes exactly when the row's uid matches |
| UserAccessIndex.Rendered | src/components/apps-library/users/user/index.js:100-118 | "No users found." exactly when no grant matches; otherwise every match, unpaginated |
| UserAccessIndex.EmptyQueryListsAll | src/components/apps-library/users/user/index.js:78-82 | the empty query lists every grant in order |
| Nav.InitMenus | src/components/user-control/nav/index.js:38-41 | one item per menu, in order, keeping the menu and hidden |
| Nav.Parents | src/components/user-control/nav/index.js:43 | exactly the items whose `parent_id` is null, with multiplicities |
| Nav.Children | src/components/user-control/nav/index.js:156-158 | exactly the items whose `parent_id` is the parent's id |
| Nav.ToggleChildren | src/components/user-control/nav/index.js:62-70 | flips visibility exactly on the items whose `parent_id` is the id; every other item is unchanged; the length is kept |
| Nav.ToggleChildrenTwice | src/components/user-control/nav/index.js:62-70 | toggling the same id twice restores the menu list |
| Nav.ToggleKeepsParents | src/components/user-control/nav/index.js:62-70 | toggling never changes the parents |
| Nav.ToggleKeepsOtherChildren | src/components/user-control/nav/index.js:62-70 | toggling one parent leaves every other parent's children as they were |
| Nav.ToggleFlipsOwnChildren | src/components/user-control/nav/index.js:62-70 | the toggled parent's children are the same items, in order, each with its visibility flipped |
| Nav.NavBar.ToggleTheme | src/components/user-control/nav/index.js:13 | flips dark mode only |
| Nav.NavBar.ToggleMenu | src/components/user-control/nav/index.js:14 | flips the sidebar open state only |
| Nav.NavBar.SetMenus | src/components/user-control/nav/index.js:38-45 | the loaded menus are stored, the parents are recomputed from them, loading ends and the error is kept |
| Nav.NavBar.HandleWebMenuList | src/components/user-control/nav/index.js:24-60 | loaded menus start hidden and parents are recomputed; a rejection with a response stores its message and signs out; a missing token redirects; data that is not an array, or a rejection without a response, changes nothing |
| Nav.NavBar.ToggleChildMenu | src/components/user-control/nav/index.js:62-70 | the menu list becomes `ToggleChildren` of the old one, and the parents are kept |
| FleetDashboard.StatusRows | src/components/apps-library/dashboard/fleet/index.js:47-54 | exactly the entries keyed IN, OUT or REPARASI, as rows |
| FleetDashboard.StatusRowsAppend | src/components/apps-library/dashboard/fleet/index.js:48-53 | the rows keep entry order |
| FleetDashboard.CityRows | src/components/apps-library/dashboard/fleet/index.js:60-65 | one row per entry, in order, with the key as city and the value as count |
| FleetDashboard.RepairRows | src/components/apps-library/dashboard/fleet/index.js:38-41 | exactly two rows: heavy repairs, then light repairs |
| FleetDashboard.RepairDataAfter | src/components/apps-library/dashboard/fleet/index.js:36-43 | results present: the two repair rows; otherwise the old chart |
| FleetDashboard.StatusDataAfter | src/components/apps-library/dashboard/fleet/index.js:45-56 | data present: the status rows; otherwise the old chart |
| FleetDashboard.CityDataAfter | src/components/apps-library/dashboard/fleet/index.js:58-67 | data present: the city rows; otherwise the old chart |
| FleetDashboard.RepairColour | src/components/apps-library/dashboard/fleet/index.js:105 | slice `index` takes palette entry `index`, `["#FF5733", "#FFC300"][index]` |
| FleetDashboard.StatusColour | src/components/apps-library/dashboard/fleet/index.js:129 | `index % 7` always picks a colour of the seven-colour palette |
| FleetDashboard.StatusColoursDistinct | src/components/apps-library/dashboard/fleet/index.js:129 | no two of any seven consecutive slices share a colour |
| FleetDashboard.StatusColourPeriodic | src/components/apps-library/dashboard/fleet/index.js:129 | the colours repeat with period seven |
| FleetDashboard.PaginatedData | src/components/apps-library/dashboard/fleet/index.js:70-72 | with the page fixed at 1 the table is the first ten vehicles |
| KurirDashboard.CourierLabel | src/components/apps-library/dashboard/kurir/index.js:38 | the label is the username, " (", the employee id, then ")" |
| KurirDashboard.LabelRoundTrip | src/components/apps-library/dashboard/kurir/index.js:38 | the username can be read back from the label once the id is known |
| KurirDashboard.ToOption | src/components/apps-library/dashboard/kurir/index.js:36-39 | the option's value is the employee id and its label is the courier label |
| KurirDashboard.ToOptions | src/components/apps-library/dashboard/kurir/index.js:36-39 | one option per courier, in order |
| KurirDashboard.KurirPage.FetchKurirData | src/components/apps-library/dashboard/kurir/index.js:22-45 | the options are replaced only when a token is present and an array of couriers arrives |
| KurirDashboard.LooksUp | src/components/apps-library/dashboard/kurir/index.js:48 | a query is looked up exactly when it has three or more characters |
| KurirDashboard.KurirPage.QueryChanged | src/components/apps-library/dashboard/kurir/index.js:22-53 | a query under three characters clears the options; a longer one replaces them with the couriers when the token and an array arrive, and otherwise keeps them |
| KurirDashboard.KurirPage.HandleInputChange | src/components/apps-library/dashboard/kurir/index.js:55-58 | stores the typed text |
| KurirDashboard.KurirPage.SetSelection | src/components/apps-library/dashboard/kurir/index.js:122-152 | stores the chosen courier and both dates |
| KurirDashboard.KurirPage.FetchDeliveryList | src/components/apps-library/dashboard/kurir/index.js:60-100 | without a courier and both dates: the validation error and no request; otherwise the delivery list, then the POD list and totals, each empty when absent, each stored only if its request got that far; loading ends; the error is never cleared |
| KurirDashboard.KurirPage.ReadyToFetch | src/components/apps-library/dashboard/kurir/index.js:62 | ready exactly when none of start date, end date and courier is missing |
| KurirDashboard.KurirPage.DeliveryPanel | src/components/apps-library/dashboard/kurir/index.js:193-197 | loading, then the error, then the empty notice exactly when the delivery list is empty, otherwise the whole list |
| KurirDashboard.KurirPage.ErrorIsSticky | src/components/apps-library/dashboard/kurir/index.js:193-197 | a set validation message occupies the panel once loading is over; that it is never cleared is the `errorDeliveryList == old(errorDeliveryList)` clause of `FetchDeliveryList` |
| UserDetail.UidValid | src/components/apps-library/users/user/detail.js:27 | a valid uid is present and non-empty; a missing, empty or `":uid"` uid is invalid, and every other uid is valid |
| UserDetail.EmailPrefix | src/components/apps-library/users/user/detail.js:89 | `split("@")[0]`: the longest prefix of the email without '@', ending at the first '@' if there is one |
| UserDetail.EmailPrefixOfAddress | src/components/apps-library/users/user/detail.js:89 | the prefix of `name@domain`, for a name without '@', is the name |
| UserDetail.ToForm | src/components/apps-library/users/user/detail.js:44-49 | each profile field, or "" when missing or falsy; a truthy `roles_id` is kept as the number it was |
| UserDetail.SubmittedRole | src/components/apps-library/users/user/detail.js:44-89 | a loaded role id is sent as a number until the role input is edited, and then as the typed text |
| UserDetail.SetField | src/components/apps-library/users/user/detail.js:71-77 | a change event replaces exactly the named field |
| UserDetail.SubmitPayload | src/components/apps-library/users/user/detail.js:86-112 | the form, the username from the email, not admin, active, plus the uid exactly when it is valid |
| UserDetail.PayloadUsername | src/components/apps-library/users/user/detail.js:89 | an email `name@domain` sends the username `name` |
| UserDetail.IntText | src/components/apps-library/users/user/detail.js:169 | a status code's text: a minus sign exactly for a negative code, then digits whose value is the code |
| UserDetail.NatTextRoundTrip | src/components/apps-library/users/user/detail.js:169 | reading the printed digits back gives the number |
| UserDetail.SubmitStatus | src/components/apps-library/users/user/detail.js:124-137 | 200 with data: updated or added by uid validity; another answer: the failure prefix with the server message or "Unknown error occurred."; a throw: the server message or the generic error |
| UserDetail.DeleteStatus | src/components/apps-library/users/user/detail.js:161-173 | 200: deleted; another status: the failure prefix with the status; a throw: the generic error |
| UserDetail.UserForm.Load | src/components/apps-library/users/user/detail.js:26-67 | a valid uid loads the account into the form or sets "Failed to load user data."; an invalid uid changes nothing; loading ends in every case |
| UserDetail.UserForm.HandleChange | src/components/apps-library/users/user/detail.js:71-77 | only the named form field changes |
| UserDetail.UserForm.HandleSubmit | src/components/apps-library/users/user/detail.js:80-141 | sends `SubmitPayload`; shows `SubmitStatus`; only a successful add clears the form; submitting ends |
| UserDetail.UserForm.HandleDelete | src/components/apps-library/users/user/detail.js:145-178 | shows `DeleteStatus`; only a 200 marks the account deleted and clears the form; submitting ends |

## Left out

- Network, storage and the browser:
  - every axios call is an input parameter (`Fetch<T>`);
  - the `localStorage` token is an input;
  - the reads and writes of `localStorage`, `window.location.href` and `window.location.reload()` are not modelled; a reload is an out-parameter.
- Routing: `useNavigate`/`navigate(...)` and the route files are foreign-library code. Route parameters (`uid`, `id`) are constructor inputs.
- Timing and concurrency:
  - lodash `debounce` is not modelled. `KurirDashboard.KurirPage.QueryChanged` is the debounced body.
  - `setTimeout` focus calls are not modelled.
  - Overlapping requests are not modelled. Each async effect is one atomic step that ends in its final state, and intermediate `loading` values are collapsed.
- Rendering: JSX, CSS and the charts are not modelled. The exceptions are the view choices captured by the `Rendered`/`RenderedRows`/`DeliveryPanel` functions and the labels.
- Floating point and dates:
  - the POD percentage (`totalReceived / totalRecords * 100`, dashboard/kurir/index.js:171-172) is not modelled;
  - date formatting is not modelled.
- Text.Lower: models `toLowerCase` on ASCII letters only. Unicode case mapping is not modelled.
- Strings are sequences of Unicode scalar values, while JavaScript's `.length` counts UTF-16 code units. The two agree on text inside the Basic Multilingual Plane:
  - KurirDashboard.LooksUp: counts characters, so a query such as "a" followed by one emoji has length 2 here and 3 in the source (dashboard/kurir/index.js:48); the model clears the options where the source fetches.
  - BranchFleetList.LooksUp: the same difference for the three-character keyword threshold (dashboard/list/index.js:17).
- Searched record fields are typed `string` and are never null here. In the source, a null field makes `toLowerCase` throw inside the filter:
  - FleetMaster.FleetTable.HandleSearch: always succeeds here. In the source, a vehicle with a null `driver` (or another searched field) throws at masters/fleet/index.js:44, and `filteredData` and `currentPage` stay as they were.
  - The other searches (`Searches`, `DeliveryOrder.SearchShipments`, `BranchFleetList.FilterByPlate`) assume non-null fields in the same way; in the source a null field there throws where the filter runs (during render, or in the delivery-order search handler).
- FleetDashboard.PaginatedData: takes the table's `fleetData` as a parameter. In the source it is the `results.data` of the `/devkits/dashboard/fleet/repair` response (dashboard/fleet/index.js:31-32), the same endpoint the repair chart reads; the request is not modelled.
- A field read with `|| []` that is truthy but not an array is not modelled on the courier dashboard and the branch fleet list: it yields `None` here, while the source would store it.
- DeliveryOrder.DeliveryDetails.Load: the source spreads both parts (`[...receivedData, ...unreceivedData]`, dashboard/kurir/deliveryorder/index.js:33-35). A truthy part that cannot be iterated (an object, a number, `true`) makes the spread throw, and the catch (lines 40-43) sets `error` to the exception's message and keeps both lists. The model has no such part: a response carrying one is passed in as `Failure` with that message, which takes the same path. A string part, which the source spreads into its characters, is not modelled.
- Nested envelope fields (`response.data.express21.results...`) that are missing: on screens without optional chaining these throw, and the model treats them as `Failure`.
- FleetMaster.FleetTable.Load: a successful response whose data is absent is treated as a failure, not as storing `undefined`.
- The `console.log`/`console.error` calls are not modelled.
- `handleLogout` in nav (storage and redirect only) is not modelled.
- `fetchUserDetail` in users/user/list.js only logs its response and is not modelled.
- users/user/index.js:
  - its `formData` state is never set and is not modelled;
  - its fetch and post are those of `AccessUserDetail` and are not repeated. Its render and empty-query property are modelled in `UserAccessIndex`.
- HTTP status handling: axios rejects every non-2xx status, so a non-200 answer reaching `UserDetail.SubmitStatus` or `UserDetail.DeleteStatus` is a non-200 success status. The model takes any status as given.
- Files with no logic beyond fetch-and-render are not modelled: the access-role index, role list and role detail, users/user/detail/index.js, masters/fleet/detail, the login portal, the resi screen, print-qr and the web-menu chart page.

Differences between the written behaviour and what one might expect, which the model reproduces:
- The web-menu list's toggle patches the `/users/account/.../toggle-access` endpoint with a menu uid.
- In nav, a missing token sets the redirect but the menu request still goes out.
- In nav, the 401 message is at once overwritten by the error's own message.
- In the branch fleet list, clicking a suggestion also re-runs the suggestion lookup for the chosen name.
- The courier dashboard never clears its validation error.
