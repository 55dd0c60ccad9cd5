/** The navigation bar of src/components/Header.jsx: the menu filtered by
    sign-in, the mobile menu's open flag, and the logout handler. */
module Header {
  import opened Basics
  import opened Routing
  import opened AuthContext

  /** An entry of `menuItemsList`; `caption` is its `label`, and its icon
      is not modelled. */
  datatype MenuItem = MenuItem(path: string, caption: string, authRequired: bool)

  const HomeItem := MenuItem("/", "Home", false)
  const BrowseItem := MenuItem("/browse-tasks", "Browse Tasks", false)
  const AddTaskItem := MenuItem("/add-task", "Add Task", true)
  const MyTasksItem := MenuItem("/my-tasks", "My Posted Tasks", true)

  /** `menuItemsList`, in declared order. */
  const MenuItemsList: seq<MenuItem> := [HomeItem, BrowseItem, AddTaskItem, MyTasksItem]

  /** The filter `item => !item.authRequired || (item.authRequired && user)`. */
  predicate Shows(item: MenuItem, signedIn: bool)
  {
    !item.authRequired || (item.authRequired && signedIn)
  }

  /** `items.filter(...)` with that predicate. */
  function VisibleItems(items: seq<MenuItem>, signedIn: bool): seq<MenuItem>
  {
    if items == [] then []
    else (if Shows(items[0], signedIn) then [items[0]] else []) + VisibleItems(items[1..], signedIn)
  }

  /** The filter keeps exactly the items its predicate accepts, and never
      adds one. */
  lemma {:induction false} VisibleItemsMeaning(items: seq<MenuItem>, signedIn: bool)
    ensures forall x :: x in VisibleItems(items, signedIn) <==> x in items && Shows(x, signedIn)
    ensures |VisibleItems(items, signedIn)| <= |items|
  {
    if items != [] {
      VisibleItemsMeaning(items[1..], signedIn);
      assert forall x :: x in items <==> x == items[0] || x in items[1..];
    }
  }

  /** Filtering a list in two parts filters each part and keeps them in
      order, so the filter never reorders items. */
  lemma {:induction false} VisibleItemsConcat(a: seq<MenuItem>, b: seq<MenuItem>, signedIn: bool)
    ensures VisibleItems(a + b, signedIn) == VisibleItems(a, signedIn) + VisibleItems(b, signedIn)
  {
    if a != [] {
      assert (a + b)[1..] == a[1..] + b;
      VisibleItemsConcat(a[1..], b, signedIn);
    } else {
      assert a + b == b;
    }
  }

  /** A signed-in user sees every item, in declared order. */
  lemma {:induction false} SignedInSeesAll(items: seq<MenuItem>)
    ensures VisibleItems(items, true) == items
  {
    if items != [] {
      SignedInSeesAll(items[1..]);
      assert items == [items[0]] + items[1..];
    }
  }

  /** Signed out, the menu is Home and Browse Tasks; signed in, it is all
      four items. */
  lemma MenuByAuth()
    ensures VisibleItems(MenuItemsList, false) == [HomeItem, BrowseItem]
    ensures VisibleItems(MenuItemsList, true) == MenuItemsList
  {
    SignedInSeesAll(MenuItemsList);
    var items := MenuItemsList;
    assert items[1..] == [BrowseItem, AddTaskItem, MyTasksItem];
    assert items[1..][1..] == [AddTaskItem, MyTasksItem];
    assert items[1..][1..][1..] == [MyTasksItem];
    assert VisibleItems([MyTasksItem], false) == [] by {
      assert [MyTasksItem][1..] == [];
    }
    assert VisibleItems([AddTaskItem, MyTasksItem], false) == [];
    assert VisibleItems([BrowseItem, AddTaskItem, MyTasksItem], false) == [BrowseItem];
  }

  /** What the bar renders: the pulsing placeholder while the session
      loads, or the bar with the mobile menu (when open), the desktop
      menu and the name in the account menu of a signed-in user. */
  datatype Bar =
    | Skeleton
    | Navbar(mobileMenu: Option<seq<MenuItem>>, desktopMenu: seq<MenuItem>, accountName: Option<string>)

  /** The render of the bar for the session `loading` and `user`. */
  function Render(loading: bool, user: Option<User>, isMenuOpen: bool): (b: Bar)
    ensures b == Skeleton <==> loading
    ensures b.Navbar? ==> (b.mobileMenu.Some? <==> isMenuOpen)
    ensures b.Navbar? && b.mobileMenu.Some? ==> b.mobileMenu.value == b.desktopMenu
    ensures b.Navbar? ==> b.desktopMenu == VisibleItems(MenuItemsList, user.Some?)
    ensures b.Navbar? ==> (b.accountName.Some? <==> user.Some?)
  {
    if loading then Skeleton
    else
      var items := VisibleItems(MenuItemsList, user.Some?);
      Navbar(if isMenuOpen then Some(items) else None,
             items,
             if user.Some? then Some(Or(user.value.displayName, "User")) else None)
  }

  /** The bar's state: whether the mobile menu is open. */
  class HeaderBar {
    var isMenuOpen: bool

    constructor ()
      ensures !isMenuOpen
    {
      isMenuOpen := false;
    }

    /** The hamburger button: `setIsMenuOpen(!isMenuOpen)`. */
    method Toggle()
      modifies this
      ensures isMenuOpen == !old(isMenuOpen)
    {
      isMenuOpen := !isMenuOpen;
    }

    /** `closeMenu`, run by a click on a mobile menu item. */
    method CloseMenu()
      modifies this
      ensures !isMenuOpen
    {
      isMenuOpen := false;
    }

    /** `handleLogout`; `outcome` is what the provider's sign-out gives.
        Returns the navigation performed, if any. */
    method HandleLogout(auth: AuthProvider, outcome: Result<(), AuthError>)
      returns (nav: Option<Navigation>)
      modifies this, auth`loading, auth`loadingLog
      ensures !auth.loading && auth.loadingLog == old(auth.loadingLog) + [true, false]
      ensures auth.user == old(auth.user)
      ensures outcome.Ok? ==> nav == Some(GoTo("/")) && !isMenuOpen
      ensures outcome.Err? ==> nav == None && isMenuOpen == old(isMenuOpen)
    {
      var r := auth.Logout(outcome);
      if r.Ok? {
        nav := Some(GoTo("/"));
        isMenuOpen := false;
      } else {
        nav := None;
      }
    }
  }
}
