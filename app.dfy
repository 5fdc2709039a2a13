/**
 * The application root: the route table and the startup rule that applies a
 * saved or operating-system dark theme.
 */
module App {

  import opened Wrappers
  import opened Host
  import UiSlice

  datatype Page =
    | LandingPage
    | LoginPage
    | SignupPage
    | Dashboard
    | TransactionsPage
    | AddTransactionPage
    | EditTransactionPage(id: string)
    | ReportsPage
    | ProfilePage

  /** What a route renders: a public page, a page wrapped in `ProtectedRoute` and `Layout`, or a `Navigate`. */
  datatype Element =
    | Public(page: Page)
    | Protected(page: Page)
    | Redirect(to: string)

  const EDIT_PREFIX: string := "/edit-transaction/"

  /** The `:id` of `/edit-transaction/:id`: one non-empty segment after the prefix. */
  function EditId(path: string): (id: Option<string>)
    ensures id.Some? <==> |path| > |EDIT_PREFIX| && path[..|EDIT_PREFIX|] == EDIT_PREFIX && '/' !in path[|EDIT_PREFIX|..]
    ensures id.Some? ==> path == EDIT_PREFIX + id.value && id.value != ""
  {
    if |path| > |EDIT_PREFIX| && path[..|EDIT_PREFIX|] == EDIT_PREFIX && '/' !in path[|EDIT_PREFIX|..] then
      Some(path[|EDIT_PREFIX|..])
    else
      None
  }

  /** The three public paths. */
  predicate IsPublicPath(path: string) {
    path == "/" || path == "/login" || path == "/signup"
  }

  /** The six protected paths, the edit route counted once for every id. */
  predicate IsProtectedPath(path: string) {
    path == "/dashboard" || path == "/transactions" || path == "/add-transaction"
    || EditId(path).Some? || path == "/reports" || path == "/profile"
  }

  /** The `<Routes>` table: the element a pathname renders for the given authentication flag. */
  function Route(path: string, isAuthenticated: bool): Element {
    if path == "/" then (if isAuthenticated then Redirect("/dashboard") else Public(LandingPage))
    else if path == "/login" then (if isAuthenticated then Redirect("/dashboard") else Public(LoginPage))
    else if path == "/signup" then (if isAuthenticated then Redirect("/dashboard") else Public(SignupPage))
    else if path == "/dashboard" then Protected(Dashboard)
    else if path == "/transactions" then Protected(TransactionsPage)
    else if path == "/add-transaction" then Protected(AddTransactionPage)
    else if EditId(path).Some? then Protected(EditTransactionPage(EditId(path).value))
    else if path == "/reports" then Protected(ReportsPage)
    else if path == "/profile" then Protected(ProfilePage)
    else Redirect("/")
  }

  /** Where a path leads in one step: a page shown (with or without the layout) or a new path. */
  datatype Step = Shown(page: Page, inLayout: bool) | GoTo(path: string)

  /**
   * One step of resolution. `ProtectedRoute` is not part of this model; it is
   * taken to render its child when authenticated and to redirect to `/login` otherwise.
   */
  function Resolve(path: string, isAuthenticated: bool): Step {
    match Route(path, isAuthenticated)
    case Public(p) => Shown(p, false)
    case Protected(p) => if isAuthenticated then Shown(p, true) else GoTo("/login")
    case Redirect(to) => GoTo(to)
  }

  /** The page reached from `path` following at most `hops` redirects, if one is reached. */
  function Follow(path: string, isAuthenticated: bool, hops: nat): Option<Page>
    decreases hops
  {
    match Resolve(path, isAuthenticated)
    case Shown(p, _) => Some(p)
    case GoTo(next) => if hops == 0 then None else Follow(next, isAuthenticated, hops - 1)
  }

  /** The public routes send an authenticated user to the dashboard and show their page otherwise. */
  lemma PublicRoutes(path: string, isAuthenticated: bool)
    requires IsPublicPath(path)
    ensures isAuthenticated ==> Route(path, isAuthenticated) == Redirect("/dashboard")
    ensures !isAuthenticated ==> Route(path, isAuthenticated).Public?
    ensures !isAuthenticated ==>
      Route(path, isAuthenticated).page == (if path == "/" then LandingPage else if path == "/login" then LoginPage else SignupPage)
  {
  }

  /** The protected routes render their page inside the guard and the layout whatever the flag. */
  lemma ProtectedRoutes(path: string, isAuthenticated: bool)
    requires IsProtectedPath(path)
    ensures Route(path, isAuthenticated).Protected?
    ensures Route(path, isAuthenticated) == Route(path, !isAuthenticated)
  {
    assert !IsPublicPath(path) by {
      if EditId(path).Some? { assert path[0..|EDIT_PREFIX|] == EDIT_PREFIX; }
    }
  }

  /** Every path outside the table is sent to `/`. */
  lemma CatchAll(path: string, isAuthenticated: bool)
    ensures Route(path, isAuthenticated) == Redirect("/") <==> !IsPublicPath(path) && !IsProtectedPath(path)
  {
    if IsProtectedPath(path) {
      ProtectedRoutes(path, isAuthenticated);
    }
  }

  /** Resolution always ends on a page within two redirects. */
  lemma RedirectsTerminate(path: string, isAuthenticated: bool)
    ensures Follow(path, isAuthenticated, 2).Some?
  {
  }

  /** An unknown path takes an authenticated user to the dashboard by exactly two redirects. */
  lemma UnknownPathAuthenticated(path: string)
    requires !IsPublicPath(path) && !IsProtectedPath(path)
    ensures Follow(path, true, 1) == None
    ensures Follow(path, true, 2) == Some(Dashboard)
  {
    CatchAll(path, true);
  }

  /** An unauthenticated user asking for a protected page lands on the login page after one redirect. */
  lemma ProtectedPathUnauthenticated(path: string)
    requires IsProtectedPath(path)
    ensures Follow(path, false, 0) == None
    ensures Follow(path, false, 1) == Some(LoginPage)
  {
    ProtectedRoutes(path, false);
  }

  /** The startup rule: add `dark` when the saved theme is `'dark'`, or nothing is saved and the OS prefers dark. */
  function StartupAddsDark(saved: Option<string>, prefersDark: bool): bool {
    saved == Some(UiSlice.DARK) || ((saved == None || saved == Some("")) && prefersDark)
  }

  /** The startup `useEffect`: it may add the `dark` class and never removes it. */
  method ApplySavedTheme(b: Browser)
    modifies b
    ensures b.darkClass == (old(b.darkClass) || StartupAddsDark(old(b.GetItem("theme")), b.prefersDark))
    ensures b.trace == old(b.trace) + (if StartupAddsDark(old(b.GetItem("theme")), b.prefersDark) then [AddDarkClass] else [])
    ensures b.storage == old(b.storage) && b.pathname == old(b.pathname)
  {
    var savedTheme := b.GetItem("theme");
    if StartupAddsDark(savedTheme, b.prefersDark) {
      b.AddDark();
    }
  }

  /** A saved `'light'` never adds the class, whatever the OS prefers. */
  lemma SavedLightStaysLight(prefersDark: bool)
    ensures !StartupAddsDark(Some(UiSlice.LIGHT), prefersDark)
  {
    assert UiSlice.LIGHT != UiSlice.DARK by { assert UiSlice.LIGHT[0] != UiSlice.DARK[0]; }
  }

  /**
   * The startup class and the store's initial theme agree unless nothing is
   * saved and the OS prefers dark: then the page is dark while the store says `'light'`.
   */
  lemma StartupAgreesWithStore(storage: map<string, string>, prefersDark: bool)
    ensures var saved := if "theme" in storage then Some(storage["theme"]) else None;
      StartupAddsDark(saved, prefersDark) == (UiSlice.InitialTheme(storage) == UiSlice.DARK)
      <==> !((saved == None || saved == Some("")) && prefersDark)
  {
    assert UiSlice.LIGHT != UiSlice.DARK by { assert UiSlice.LIGHT[0] != UiSlice.DARK[0]; }
  }
}
