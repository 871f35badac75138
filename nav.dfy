/**
 * The sidebar (`Nav` of user-control/nav): the fetched web menus are stored with a
 * visibility flag, the top-level menus (no `parent_id`) are listed as parents, and
 * clicking a parent flips the visibility of exactly its children.
 */
module Nav {
  import opened Collections
  import opened Remote
  import opened Records

  /** A menu as the sidebar stores it: `{ ...menu, isVisible }`. */
  datatype MenuItem = MenuItem(menu: WebMenu, isVisible: bool)

  /** `data.map(menu => ({ ...menu, isVisible: false }))`. */
  function InitMenus(menus: seq<WebMenu>): (r: seq<MenuItem>)
    ensures |r| == |menus|
    ensures forall i :: 0 <= i < |r| ==> r[i].menu == menus[i] && !r[i].isVisible
  {
    if menus == [] then [] else [MenuItem(menus[0], false)] + InitMenus(menus[1..])
  }

  predicate IsParent(m: MenuItem) {
    m.menu.parent_id.None?
  }

  /** `listMenu.filter(menu => menu.parent_id === null)`. */
  function Parents(items: seq<MenuItem>): (r: seq<MenuItem>)
    ensures forall m :: m in r <==> m in items && IsParent(m)
    ensures forall m :: multiset(r)[m] == if IsParent(m) then multiset(items)[m] else 0
  {
    Filter(items, IsParent)
  }

  /** `menuList.filter(menu => menu.parent_id === parent.id)`: the children shown under a parent. */
  function Children(items: seq<MenuItem>, id: int): (r: seq<MenuItem>)
    ensures forall m :: m in r <==> m in items && m.menu.parent_id == Some(id)
    ensures forall m :: multiset(r)[m] == if m.menu.parent_id == Some(id) then multiset(items)[m] else 0
  {
    Filter(items, (m: MenuItem) => m.menu.parent_id == Some(id))
  }

  function FlipVisible(m: MenuItem): MenuItem {
    m.(isVisible := !m.isVisible)
  }

  /** `toggleChildMenu(id)` on the list. */
  function ToggleChildren(items: seq<MenuItem>, id: int): (r: seq<MenuItem>)
    ensures |r| == |items|
    ensures forall i :: 0 <= i < |items| && items[i].menu.parent_id == Some(id) ==>
      r[i] == items[i].(isVisible := !items[i].isVisible)
    ensures forall i :: 0 <= i < |items| && items[i].menu.parent_id != Some(id) ==> r[i] == items[i]
  {
    MapWhere(items, (m: MenuItem) => m.menu.parent_id == Some(id), FlipVisible)
  }

  /** Clicking the same parent twice restores the list. */
  lemma ToggleChildrenTwice(items: seq<MenuItem>, id: int)
    ensures ToggleChildren(ToggleChildren(items, id), id) == items
  {
    MapWhereTwice(items, (m: MenuItem) => m.menu.parent_id == Some(id), FlipVisible);
  }

  /** A click never changes the top-level menus. */
  lemma ToggleKeepsParents(items: seq<MenuItem>, id: int)
    ensures Parents(ToggleChildren(items, id)) == Parents(items)
  {
    MapWhereKeepsUnhit(items, (m: MenuItem) => m.menu.parent_id == Some(id), FlipVisible, IsParent);
  }

  /** A click never changes the children of another parent. */
  lemma ToggleKeepsOtherChildren(items: seq<MenuItem>, id: int, other: int)
    requires other != id
    ensures Children(ToggleChildren(items, id), other) == Children(items, other)
  {
    MapWhereKeepsUnhit(items, (m: MenuItem) => m.menu.parent_id == Some(id), FlipVisible,
      (m: MenuItem) => m.menu.parent_id == Some(other));
  }

  /** A click flips every child of the clicked parent, in place. */
  lemma ToggleFlipsOwnChildren(items: seq<MenuItem>, id: int)
    ensures |Children(ToggleChildren(items, id), id)| == |Children(items, id)|
    ensures forall i :: 0 <= i < |Children(items, id)| ==>
      Children(ToggleChildren(items, id), id)[i] == FlipVisible(Children(items, id)[i])
  {
    FilterMapWhere(items, (m: MenuItem) => m.menu.parent_id == Some(id), FlipVisible,
      (m: MenuItem) => m.menu.parent_id == Some(id));
  }

  /** The outcome of `GET /menus/web-menu/list?access=true`. */
  datatype MenuResponse =
    | Loaded(data: ListField<WebMenu>)
      /** A rejection; `status` is `None` when the error carries no response. */
    | Rejected(message: string, status: Option<int>)

  class NavBar {
    const storedToken: Option<string>
    var error: Option<string>
    var loading: bool
    var darkMode: bool
    var menuOpen: bool
    var menuList: seq<MenuItem>
    var parentMenu: seq<MenuItem>

    /** `parentMenu` always lists the top-level entries of `menuList`. */
    ghost predicate Valid()
      reads this
    {
      parentMenu == Parents(menuList)
    }

    constructor (token: Option<string>)
      ensures Valid()
      ensures storedToken == token && error == None && loading && !darkMode && !menuOpen
      ensures menuList == [] && parentMenu == []
    {
      storedToken := token;
      error, loading, darkMode, menuOpen := None, true, false, false;
      menuList, parentMenu := [], [];
    }

    method ToggleTheme()
      requires Valid()
      modifies this
      ensures Valid()
      ensures darkMode == !old(darkMode)
      ensures error == old(error) && loading == old(loading) && menuOpen == old(menuOpen)
      ensures menuList == old(menuList) && parentMenu == old(parentMenu)
    {
      darkMode := !darkMode;
    }

    method ToggleMenu()
      requires Valid()
      modifies this
      ensures Valid()
      ensures menuOpen == !old(menuOpen)
      ensures error == old(error) && loading == old(loading) && darkMode == old(darkMode)
      ensures menuList == old(menuList) && parentMenu == old(parentMenu)
    {
      menuOpen := !menuOpen;
    }

    /**
     * `handleWebMenuList`. Without a stored token the page is sent to "/" (`redirect`) but
     * the request is still made. A list of menus is stored hidden and its parents listed;
     * a rejection with a response shows its message, ends loading and signs out (clearing
     * the stored account and token and going to "/"). When the data is not an array, or
     * the rejection has no response, the handler throws before changing anything.
     */
    method HandleWebMenuList(response: MenuResponse) returns (redirect: bool, signOut: bool)
      requires Valid()
      modifies this
      ensures Valid()
      ensures signOut <==> response.Rejected? && response.status.Some?
      ensures redirect <==> storedToken.None? || signOut
      ensures response.Loaded? && response.data.Some? ==>
        menuList == InitMenus(response.data.value) && !loading && error == old(error)
      ensures signOut ==>
        error == Some(response.message) && !loading && menuList == old(menuList)
      ensures (response.Loaded? && response.data.None?) || (response.Rejected? && response.status.None?) ==>
        menuList == old(menuList) && loading == old(loading) && error == old(error)
      ensures darkMode == old(darkMode) && menuOpen == old(menuOpen)
    {
      signOut := response.Rejected? && response.status.Some?;
      redirect := storedToken.None? || signOut;
      if response.Loaded? && response.data.Some? {
        SetMenus(InitMenus(response.data.value));
      } else if signOut {
        error := Some(response.message);
        loading := false;
      }
    }

    /** The success path: store the list and its parents, end loading. */
    method SetMenus(listMenu: seq<MenuItem>)
      modifies this
      ensures Valid()
      ensures menuList == listMenu && parentMenu == Parents(listMenu) && !loading
      ensures error == old(error) && darkMode == old(darkMode) && menuOpen == old(menuOpen)
    {
      menuList, parentMenu := listMenu, Parents(listMenu);
      loading := false;
    }

    /** `toggleChildMenu(id)`: flip the children of `id`; the parents stay as they were. */
    method ToggleChildMenu(id: int)
      requires Valid()
      modifies this
      ensures Valid()
      ensures menuList == ToggleChildren(old(menuList), id)
      ensures parentMenu == old(parentMenu)
      ensures error == old(error) && loading == old(loading)
      ensures darkMode == old(darkMode) && menuOpen == old(menuOpen)
    {
      ToggleKeepsParents(menuList, id);
      menuList := ToggleChildren(menuList, id);
    }
  }
}
