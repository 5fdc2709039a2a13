/**
 * The browser and the store as the components see them: durable storage
 * (`localStorage`), the `dark` class on the root element, the operating
 * system's colour-scheme preference, the current pathname, and the ordered
 * trace of every outward effect (storage writes, class-list edits,
 * navigations, dispatched actions and API requests).
 */
module Host {

  import opened Wrappers

  /** A value of a query object: page and limit are numbers, filters are text. */
  datatype Value = Num(n: int) | Str(s: string)

  /** The body sent to create or update a transaction; the amount is the number `parseFloat` yields. */
  datatype TxPayload = TxPayload(
    amount: real,
    description: string,
    category: string,
    date: string,
    notes: string,
    txType: string)

  /** A call into the backend through a thunk of the auth or transaction slice. */
  datatype ApiCall =
    | FetchTransactions(query: map<string, Value>)
    | GetTransaction(txId: string)
    | DeleteTransaction(deletedId: string)
    | CreateTransaction(created: TxPayload)
    | UpdateTransaction(id: string, updated: TxPayload)
    | FetchDashboard
    | LoginUser(email: string, password: string)
    | LogoutUser
    | UpdateProfile(name: string, profileEmail: string)
    | ChangePassword(currentPassword: string, newPassword: string)

  /** One outward effect, in the order it happens. */
  datatype Effect =
    | SetItem(key: string, value: string)
    | AddDarkClass
    | RemoveDarkClass
    | Navigate(path: string)
    | Call(api: ApiCall)
    | SetFilters(patch: map<string, Value>)
    | ClearFilters
    | ClearAuthError

  class Browser {
    /** `localStorage`: a missing key reads as `null`. */
    var storage: map<string, string>
    /** Whether the root element carries the `dark` class. */
    var darkClass: bool
    /** `matchMedia('(prefers-color-scheme: dark)').matches` */
    const prefersDark: bool
    /** `location.pathname` */
    var pathname: string
    /** Every effect so far, oldest first. */
    var trace: seq<Effect>

    constructor (storage0: map<string, string>, prefersDark0: bool, pathname0: string)
      ensures storage == storage0 && prefersDark == prefersDark0 && pathname == pathname0
      ensures !darkClass && trace == []
    {
      storage := storage0;
      prefersDark := prefersDark0;
      pathname := pathname0;
      darkClass := false;
      trace := [];
    }

    /** `localStorage.getItem(key)`; `None` stands for `null`. */
    function GetItem(key: string): (v: Option<string>)
      reads this
      ensures v.Some? <==> key in storage
      ensures v.Some? ==> v.value == storage[key]
    {
      if key in storage then Some(storage[key]) else None
    }

    /** `localStorage.setItem(key, value)` */
    method SetItem(key: string, value: string)
      modifies this
      ensures storage == old(storage)[key := value]
      ensures trace == old(trace) + [Effect.SetItem(key, value)]
      ensures darkClass == old(darkClass) && pathname == old(pathname)
    {
      storage := storage[key := value];
      trace := trace + [Effect.SetItem(key, value)];
    }

    /** `document.documentElement.classList.add('dark')` */
    method AddDark()
      modifies this
      ensures darkClass
      ensures trace == old(trace) + [AddDarkClass]
      ensures storage == old(storage) && pathname == old(pathname)
    {
      darkClass := true;
      trace := trace + [AddDarkClass];
    }

    /** `document.documentElement.classList.remove('dark')` */
    method RemoveDark()
      modifies this
      ensures !darkClass
      ensures trace == old(trace) + [RemoveDarkClass]
      ensures storage == old(storage) && pathname == old(pathname)
    {
      darkClass := false;
      trace := trace + [RemoveDarkClass];
    }

    /** `navigate(path)` or following a `Link`. */
    method NavigateTo(path: string)
      modifies this
      ensures pathname == path
      ensures trace == old(trace) + [Navigate(path)]
      ensures storage == old(storage) && darkClass == old(darkClass)
    {
      pathname := path;
      trace := trace + [Navigate(path)];
    }

    /** Records an effect that touches neither storage, the class list nor the location. */
    method Emit(e: Effect)
      requires !e.SetItem? && !e.AddDarkClass? && !e.RemoveDarkClass? && !e.Navigate?
      modifies this
      ensures trace == old(trace) + [e]
      ensures storage == old(storage) && darkClass == old(darkClass) && pathname == old(pathname)
    {
      trace := trace + [e];
    }
  }
}
