/**
 * The `ui` slice of the store: the theme, whether the sidebar is open, and a
 * global loading flag. `Reduce` is the reducer as a function of the state and
 * the action; `UiStore` is the slice as its reducers run, updating the state
 * in place and writing the theme to storage and the `dark` class.
 */
module UiSlice {

  import opened Wrappers
  import opened Host

  const LIGHT: string := "light"
  const DARK: string := "dark"

  datatype UiState = UiState(theme: string, sidebarOpen: bool, loading: bool)

  datatype Action =
    | ToggleTheme
    | ToggleSidebar
    | CloseSidebar
    | SetLoading(payload: bool)

  /** The theme after `toggleTheme`: `'light'` becomes `'dark'`, anything else becomes `'light'`. */
  function NextTheme(theme: string): string {
    if theme == LIGHT then DARK else LIGHT
  }

  /** The reducer: the state after one action. */
  function Reduce(s: UiState, a: Action): UiState {
    match a
    case ToggleTheme => s.(theme := NextTheme(s.theme))
    case ToggleSidebar => s.(sidebarOpen := !s.sidebarOpen)
    case CloseSidebar => s.(sidebarOpen := false)
    case SetLoading(p) => s.(loading := p)
  }

  /** The theme of the initial state: the saved theme, unless it is missing or empty (`|| 'light'`). */
  function InitialTheme(storage: map<string, string>): (t: string)
    ensures t != ""
    ensures "theme" in storage && storage["theme"] != "" ==> t == storage["theme"]
    ensures !("theme" in storage && storage["theme"] != "") ==> t == LIGHT
  {
    if "theme" in storage && storage["theme"] != "" then storage["theme"] else LIGHT
  }

  /** The initial state of the slice, read from storage when the store is created. */
  function Initial(storage: map<string, string>): UiState {
    UiState(InitialTheme(storage), false, false)
  }

  /** The storage entry and the `dark` class both agree with the state's theme. */
  predicate ThemeApplied(s: UiState, storage: map<string, string>, darkClass: bool) {
    "theme" in storage && storage["theme"] == s.theme && darkClass == (s.theme == DARK)
  }

  /** `toggleTheme` yields `'dark'` exactly from `'light'`; every other theme, stored garbage included, yields `'light'`. */
  lemma NextThemeCases(theme: string)
    ensures NextTheme(theme) == DARK <==> theme == LIGHT
    ensures NextTheme(theme) == LIGHT <==> theme != LIGHT
  {
    assert LIGHT != DARK by { assert LIGHT[0] != DARK[0]; }
  }

  /** Two toggles give back the theme exactly when it was `'light'` or `'dark'`. */
  lemma ToggleThemeTwice(s: UiState)
    ensures Reduce(Reduce(s, ToggleTheme), ToggleTheme) == s <==> s.theme == LIGHT || s.theme == DARK
  {
    NextThemeCases(s.theme);
    NextThemeCases(NextTheme(s.theme));
  }

  /** `toggleSidebar` negates the flag and two of them restore the state. */
  lemma ToggleSidebarTwice(s: UiState)
    ensures Reduce(s, ToggleSidebar).sidebarOpen == !s.sidebarOpen
    ensures Reduce(Reduce(s, ToggleSidebar), ToggleSidebar) == s
  {
  }

  /** `closeSidebar` always closes and a second one changes nothing. */
  lemma CloseSidebarIdempotent(s: UiState)
    ensures !Reduce(s, CloseSidebar).sidebarOpen
    ensures Reduce(Reduce(s, CloseSidebar), CloseSidebar) == Reduce(s, CloseSidebar)
  {
  }

  /** Each reducer changes its own field and nothing else. */
  lemma ReducersTouchOwnField(s: UiState, a: Action)
    ensures a.ToggleTheme? ==> Reduce(s, a).sidebarOpen == s.sidebarOpen && Reduce(s, a).loading == s.loading
    ensures a.ToggleSidebar? || a.CloseSidebar? ==> Reduce(s, a).theme == s.theme && Reduce(s, a).loading == s.loading
    ensures a.SetLoading? ==> Reduce(s, a) == UiState(s.theme, s.sidebarOpen, a.payload)
  {
  }

  /** A theme written by `toggleTheme` is the theme the next page load starts with. */
  lemma ReloadRestoresToggledTheme(s: UiState, storage: map<string, string>)
    ensures InitialTheme(storage["theme" := Reduce(s, ToggleTheme).theme]) == Reduce(s, ToggleTheme).theme
  {
  }

  /** The slice as the store holds it: reducers update the fields in place. */
  class UiStore {
    var theme: string
    var sidebarOpen: bool
    var loading: bool

    function State(): UiState
      reads this
    {
      UiState(theme, sidebarOpen, loading)
    }

    /** The store is created with the theme saved in storage, the sidebar closed and nothing loading. */
    constructor (b: Browser)
      ensures State() == Initial(b.storage)
    {
      theme := InitialTheme(b.storage);
      sidebarOpen := false;
      loading := false;
    }

    /** `toggleTheme`: flips the theme, saves it, then adds or removes the `dark` class to match. */
    method ToggleThemeReducer(b: Browser)
      modifies this, b
      ensures State() == Reduce(old(State()), ToggleTheme)
      ensures b.storage == old(b.storage)["theme" := theme]
      ensures b.darkClass == (theme == DARK)
      ensures b.trace == old(b.trace) + [SetItem("theme", theme), if theme == DARK then AddDarkClass else RemoveDarkClass]
      ensures b.pathname == old(b.pathname)
      ensures ThemeApplied(State(), b.storage, b.darkClass)
    {
      theme := NextTheme(theme);
      b.SetItem("theme", theme);
      if theme == DARK {
        b.AddDark();
      } else {
        b.RemoveDark();
      }
    }

    /** `toggleSidebar` */
    method ToggleSidebarReducer()
      modifies this
      ensures State() == Reduce(old(State()), ToggleSidebar)
    {
      sidebarOpen := !sidebarOpen;
    }

    /** `closeSidebar` */
    method CloseSidebarReducer()
      modifies this
      ensures State() == Reduce(old(State()), CloseSidebar)
    {
      sidebarOpen := false;
    }

    /** `setLoading(payload)` */
    method SetLoadingReducer(payload: bool)
      modifies this
      ensures State() == Reduce(old(State()), SetLoading(payload))
    {
      loading := payload;
    }
  }
}
