/**
 * The shell around every protected page: the navigation list and its active
 * entry, the avatar initial and name, the theme button, the mobile sidebar
 * and logout.
 */
module Layout {

  import opened Wrappers
  import opened Chars
  import opened Host
  import opened UiSlice
  import App

  datatype NavItem = NavItem(name: string, href: string)

  const NAVIGATION: seq<NavItem> := [
    NavItem("Dashboard", "/dashboard"),
    NavItem("Transactions", "/transactions"),
    NavItem("Add Transaction", "/add-transaction"),
    NavItem("Reports", "/reports"),
    NavItem("Profile", "/profile")]

  /** An entry is highlighted when the current pathname is exactly its target. */
  predicate IsActive(pathname: string, item: NavItem) {
    pathname == item.href
  }

  lemma NavigationHrefsDistinct()
    ensures forall i, j :: 0 <= i < j < |NAVIGATION| ==> NAVIGATION[i].href != NAVIGATION[j].href
  {
    assert NAVIGATION[0].href[1] == 'd' && NAVIGATION[1].href[1] == 't' && NAVIGATION[2].href[1] == 'a';
    assert NAVIGATION[3].href[1] == 'r' && NAVIGATION[4].href[1] == 'p';
  }

  /** At most one entry is highlighted, and one is exactly when the pathname is one of the targets. */
  lemma AtMostOneActive(pathname: string)
    ensures forall i, j :: 0 <= i < j < |NAVIGATION| ==> !(IsActive(pathname, NAVIGATION[i]) && IsActive(pathname, NAVIGATION[j]))
    ensures (exists i :: 0 <= i < |NAVIGATION| && IsActive(pathname, NAVIGATION[i]))
      <==> pathname in {"/dashboard", "/transactions", "/add-transaction", "/reports", "/profile"}
  {
    NavigationHrefsDistinct();
    if pathname in {"/dashboard", "/transactions", "/add-transaction", "/reports", "/profile"} {
      if pathname == "/dashboard" { assert IsActive(pathname, NAVIGATION[0]); }
      else if pathname == "/transactions" { assert IsActive(pathname, NAVIGATION[1]); }
      else if pathname == "/add-transaction" { assert IsActive(pathname, NAVIGATION[2]); }
      else if pathname == "/reports" { assert IsActive(pathname, NAVIGATION[3]); }
      else { assert IsActive(pathname, NAVIGATION[4]); }
    }
  }

  /** Every entry leads to a protected route, which an authenticated user sees inside this layout. */
  lemma NavigationTargetsAreProtected()
    ensures forall i :: 0 <= i < |NAVIGATION| ==> App.IsProtectedPath(NAVIGATION[i].href)
    ensures forall i :: 0 <= i < |NAVIGATION| ==>
      App.Resolve(NAVIGATION[i].href, true).Shown? && App.Resolve(NAVIGATION[i].href, true).inLayout
  {
    forall i | 0 <= i < |NAVIGATION|
      ensures App.IsProtectedPath(NAVIGATION[i].href)
    {
      var h := NAVIGATION[i].href;
      assert h == "/dashboard" || h == "/transactions" || h == "/add-transaction" || h == "/reports" || h == "/profile";
    }
    forall i | 0 <= i < |NAVIGATION|
      ensures App.Resolve(NAVIGATION[i].href, true).Shown? && App.Resolve(NAVIGATION[i].href, true).inLayout
    {
      App.ProtectedRoutes(NAVIGATION[i].href, true);
    }
  }

  /** The avatar shows the name's first character upper-cased, or U without a name. */
  function AvatarInitial(name: Option<string>): (s: string)
    ensures |s| == 1
    ensures name.Some? && name.value != "" ==> s[0] == ToUpper(name.value[0])
    ensures name.None? || name.value == "" ==> s == "U"
    ensures !IsLower(s[0])
  {
    if name.Some? && name.value != "" then [ToUpper(name.value[0])] else "U"
  }

  /** The name line: the user's name, or User without one. */
  function DisplayName(name: Option<string>): (s: string)
    ensures s != ""
    ensures name.Some? && name.value != "" ==> s == name.value
    ensures name.None? || name.value == "" ==> s == "User"
  {
    if name.Some? && name.value != "" then name.value else "User"
  }

  datatype Icon = Moon | Sun

  /** The theme button's tooltip names the theme a click switches to. */
  function ThemeTitle(theme: string): (t: string)
    ensures t == "Switch to " + NextTheme(theme) + " mode"
  {
    "Switch to " + (if theme == LIGHT then DARK else LIGHT) + " mode"
  }

  /** The theme button shows a moon in light mode and a sun otherwise. */
  function ThemeIcon(theme: string): (i: Icon)
    ensures i == Moon <==> theme == LIGHT
  {
    if theme == LIGHT then Moon else Sun
  }

  /** The tooltip announces the state that the click produces, and the icon changes with every click. */
  lemma ThemeButtonForetellsToggle(s: UiState)
    requires s.theme == LIGHT || s.theme == DARK
    ensures ThemeTitle(s.theme) == "Switch to " + Reduce(s, ToggleTheme).theme + " mode"
    ensures ThemeIcon(Reduce(s, ToggleTheme).theme) != ThemeIcon(s.theme)
  {
    NextThemeCases(s.theme);
  }

  /** The events of the mobile sidebar. */
  datatype SidebarEvent = MenuButton | Backdrop | CloseButton | NavClick

  /** Only the menu button opens the sidebar; every other event closes it. */
  function SidebarAfter(open: bool, e: SidebarEvent): (next: bool)
    ensures next <==> e == MenuButton
  {
    match e
    case MenuButton => true
    case Backdrop => false
    case CloseButton => false
    case NavClick => false
  }

  /** After a run of events the sidebar is open exactly when the last was the menu button. */
  function SidebarAfterAll(open: bool, es: seq<SidebarEvent>): bool
    decreases |es|
  {
    if es == [] then open else SidebarAfterAll(SidebarAfter(open, es[0]), es[1..])
  }

  lemma {:induction false} SidebarLastEventDecides(open: bool, es: seq<SidebarEvent>)
    requires es != []
    ensures SidebarAfterAll(open, es) <==> es[|es| - 1] == MenuButton
    decreases |es|
  {
    if |es| > 1 {
      SidebarLastEventDecides(SidebarAfter(open, es[0]), es[1..]);
    }
  }

  const LOGGED_OUT: string := "Logged out successfully"
  const LOGOUT_FAILED: string := "Logout failed"

  class LayoutView {
    /** The mobile sidebar; kept here, not in the store. */
    var sidebarOpen: bool

    constructor ()
      ensures !sidebarOpen
    {
      sidebarOpen := false;
    }

    /** The menu button, the backdrop and the close button. */
    method HandleSidebar(e: SidebarEvent)
      requires e != NavClick
      modifies this
      ensures sidebarOpen == SidebarAfter(old(sidebarOpen), e)
    {
      sidebarOpen := e == MenuButton;
    }

    /** Following a navigation entry moves to its target and closes the sidebar. */
    method ClickNavItem(b: Browser, item: NavItem)
      modifies this, b
      ensures sidebarOpen == SidebarAfter(old(sidebarOpen), NavClick)
      ensures b.pathname == item.href && IsActive(b.pathname, item)
      ensures b.trace == old(b.trace) + [Navigate(item.href)]
      ensures b.storage == old(b.storage) && b.darkClass == old(b.darkClass)
    {
      b.NavigateTo(item.href);
      sidebarOpen := false;
    }

    /**
     * Logging out asks the server first and goes to the login page only when
     * that succeeds. What the logout thunk does to storage is the auth slice's
     * business, so `b.storage` is left unconstrained.
     */
    method HandleLogout(b: Browser, succeeded: bool) returns (notice: string)
      modifies b
      ensures b.trace == old(b.trace) + [Call(LogoutUser)] + (if succeeded then [Navigate("/login")] else [])
      ensures b.pathname == if succeeded then "/login" else old(b.pathname)
      ensures notice == if succeeded then LOGGED_OUT else LOGOUT_FAILED
      ensures b.darkClass == old(b.darkClass)
    {
      b.Emit(Call(LogoutUser));
      if succeeded {
        notice := LOGGED_OUT;
        b.NavigateTo("/login");
      } else {
        notice := LOGOUT_FAILED;
      }
    }

    /** Either theme button dispatches the store's toggle. */
    method HandleThemeToggle(ui: UiStore, b: Browser)
      modifies ui, b
      ensures ui.State() == Reduce(old(ui.State()), ToggleTheme)
      ensures ThemeApplied(ui.State(), b.storage, b.darkClass)
      ensures b.storage == old(b.storage)["theme" := ui.theme] && b.pathname == old(b.pathname)
      ensures b.trace == old(b.trace) + [SetItem("theme", ui.theme), if ui.theme == DARK then AddDarkClass else RemoveDarkClass]
      ensures sidebarOpen == old(sidebarOpen)
    {
      ui.ToggleThemeReducer(b);
    }
  }
}
