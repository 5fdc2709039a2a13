# Expenso client: a verified model of its UI logic

Expenso is a personal-finance web client written in React with Redux. This
project models, in Dafny, the parts of the client that decide things:

- the theme and sidebar slice of the store;
- the route table and the startup theme rule;
- the transaction list's sort, query and pagination logic;
- the validation and submission of the add/edit transaction forms, the
  profile page and the login page;
- the derived figures of the reports page;
- the navigation shell (`Layout`).

It then proves properties of that model.

The browser is modelled as the class `Host.Browser`. It holds:

- `localStorage` as a map;
- the `dark` class of the root element;
- the operating system's colour-scheme preference;
- the current pathname;
- an ordered trace of every outward effect: storage writes, class-list
  edits, navigations, dispatched actions and backend requests.

An ordering promise such as "the token and the user are stored before the
move to the dashboard" then becomes an equation on the trace.

Server answers appear as parameters of the handlers. Examples are a flag
saying whether a request succeeded, or the record a fetch returned. Toast
notices are the handlers' return values.

The modules follow the source files:

| module | file |
|---|---|
| `UiSlice` | `store/slices/uiSlice.js` |
| `App` | `App.jsx` |
| `TransactionsPage` | `pages/TransactionsPage.jsx` |
| `TransactionForms` | `pages/AddTransactionPage.jsx` and `pages/EditTransactionPage.jsx` |
| `ProfilePage` | `pages/ProfilePage.jsx` |
| `LoginPage` | `pages/LoginPage.jsx` |
| `ReportsPage` | `pages/ReportsPage.jsx` |
| `Layout` | `components/Layout.jsx` |

Shared pieces:

- `Wrappers`: `Option` and `Result`.
- `Chars`: the character classes of JavaScript regular expressions.
- `FieldChecks`: the `required` and `minLength` rules of the form library.
- `Amounts`: the amount language and integer cents.
- `Patterns`: the email and password languages.

Each regular expression has two definitions:

- a ghost predicate that transcribes the language;
- an executable recogniser.

A lemma proves that the two agree.

Amounts are exact: an accepted amount text is parsed to integer cents, and
the printing of cents is proved to parse back (`Amounts.CentsRoundTrip`).

## Model

| member | source | states |
|---|---|---|
| UiSlice.InitialTheme | src/store/slices/uiSlice.js:4 | the initial theme is the saved one when it is non-empty, `light` otherwise; never empty |
| UiSlice.Initial | src/store/slices/uiSlice.js:3-7 | the initial state: the initial theme, sidebar closed, not loading |
| UiSlice.NextTheme | src/store/slices/uiSlice.js:14 | the theme after a toggle: `dark` from `light`, `light` from anything else |
| UiSlice.Reduce | src/store/slices/uiSlice.js:12-31 | the four reducers as one transition on the state |
| UiSlice.ThemeApplied | src/store/slices/uiSlice.js:15-21 | the saved `theme` entry and the `dark` class both agree with the state's theme |
| UiSlice.NextThemeCases | src/store/slices/uiSlice.js:14 | toggling sends `light` to `dark` and every other value to `light` |
| UiSlice.ToggleThemeTwice | src/store/slices/uiSlice.js:13-22 | two toggles restore the state exactly when the theme is `light` or `dark` |
| UiSlice.ToggleSidebarTwice | src/store/slices/uiSlice.js:23-25 | two sidebar toggles restore the state |
| UiSlice.CloseSidebarIdempotent | src/store/slices/uiSlice.js:26-28 | closing leaves the sidebar closed and closing again changes nothing |
| UiSlice.ReducersTouchOwnField | src/store/slices/uiSlice.js:12-31 | each reducer changes only its own field |
| UiSlice.ReloadRestoresToggledTheme | src/store/slices/uiSlice.js:3-7 | after a toggle has saved the theme, a fresh store starts with that theme |
| UiSlice.UiStore.constructor | src/store/slices/uiSlice.js:3-7 | the store starts from the saved theme, sidebar closed, not loading |
| UiSlice.UiStore.ToggleThemeReducer | src/store/slices/uiSlice.js:13-22 | flips the theme, saves it, then adds or removes `dark` so that the class matches the saved theme |
| UiSlice.UiStore.ToggleSidebarReducer | src/store/slices/uiSlice.js:23-25 | the new state is the reducer's result for toggleSidebar |
| UiSlice.UiStore.CloseSidebarReducer | src/store/slices/uiSlice.js:26-28 | the new state is the reducer's result for closeSidebar |
| UiSlice.UiStore.SetLoadingReducer | src/store/slices/uiSlice.js:29-31 | the new state is the reducer's result for setLoading |
| App.EditId | src/App.jsx:99 | the edit route matches `/edit-transaction/` followed by a non-empty segment without `/`, and yields that segment |
| App.IsPublicPath | src/App.jsx:61-72 | the three public paths |
| App.IsProtectedPath | src/App.jsx:75-121 | the six protected paths, the edit route for every id |
| App.Route | src/App.jsx:59-125 | the element the route table renders for a path and the authentication flag |
| App.Resolve | src/App.jsx:59-125 | one step of rendering: a page shown in or out of the layout, or a redirect, with the guard sending an unauthenticated user to `/login` |
| App.Follow | src/App.jsx:59-125 | the page reached after at most a given number of redirects |
| App.StartupAddsDark | src/App.jsx:27 | the startup condition: a saved `dark`, or no saved theme and the OS preferring dark |
| App.PublicRoutes | src/App.jsx:61-72 | `/`, `/login` and `/signup` redirect an authenticated user to `/dashboard` and otherwise show their page outside the layout |
| App.ProtectedRoutes | src/App.jsx:75-121 | the six protected paths always render their page in the guard and the layout, whatever the flag |
| App.CatchAll | src/App.jsx:124 | a path is redirected to `/` exactly when it is neither public nor protected |
| App.RedirectsTerminate | src/App.jsx:61-124 | every path reaches a page within two redirects |
| App.UnknownPathAuthenticated | src/App.jsx:124 | an unknown path takes an authenticated user to the dashboard in exactly two redirects |
| App.ProtectedPathUnauthenticated | src/App.jsx:75-121 | an unauthenticated request for a protected page ends on the login page after one redirect |
| App.ApplySavedTheme | src/App.jsx:24-29 | the startup effect adds `dark` exactly when the saved theme is `dark`, or nothing is saved and the OS prefers dark; it removes nothing |
| App.SavedLightStaysLight | src/App.jsx:27 | a saved `light` theme never adds `dark`, whatever the OS preference |
| App.StartupAgreesWithStore | src/App.jsx:24-29 | the startup class agrees with the store's initial theme exactly unless nothing is saved and the OS prefers dark |
| TransactionsPage.SortSameField | src/pages/TransactionsPage.jsx:60-62 | sorting by the current field keeps the field and swaps `asc` and `desc` |
| TransactionsPage.SortOtherField | src/pages/TransactionsPage.jsx:63-66 | sorting by another field selects it in descending order |
| TransactionsPage.SortTwice | src/pages/TransactionsPage.jsx:60-67 | two sorts by the current field restore the sort; two by another field end on that field ascending |
| TransactionsPage.FetchQuery | src/pages/TransactionsPage.jsx:31-39 | the query has page, limit, the filter keys, sortBy and sortOrder; sort keys come from the sort state and filters override page and limit |
| TransactionsPage.PageChangeReplacesOnlyPage | src/pages/TransactionsPage.jsx:69-77 | a page change sends the effect's query with only `page` replaced, unless a filter named `page` overrides it |
| TransactionsPage.FilterPatch | src/pages/TransactionsPage.jsx:41-43 | a filter change dispatches a patch with exactly the edited key |
| TransactionsPage.SortAfter | src/pages/TransactionsPage.jsx:60-67 | the sort state after a click on a column |
| TransactionsPage.PageCount | src/pages/TransactionsPage.jsx:379-399 | the page count the pager relies on: the fewest pages of `limit` items holding `total` items |
| TransactionsPage.ShownFrom | src/pages/TransactionsPage.jsx:382 | the first item number of the range shown |
| TransactionsPage.ShownTo | src/pages/TransactionsPage.jsx:383 | the last item number: the page's end, or the total on the last page |
| TransactionsPage.PrevDisabled | src/pages/TransactionsPage.jsx:389 | the previous button is disabled on page 1 |
| TransactionsPage.NextDisabled | src/pages/TransactionsPage.jsx:399 | the next button is disabled on the last page |
| TransactionsPage.ShownRangeBounds | src/pages/TransactionsPage.jsx:382-384 | for a page within the page count, "Showing a to b of n" has 1 ≤ a ≤ b ≤ n, at most one page of items, and the last page ends at n |
| TransactionsPage.ButtonsStayInRange | src/pages/TransactionsPage.jsx:388-399 | each pager button is enabled exactly when the page it requests lies in 1..totalPages |
| TransactionsPage.ViewFor | src/pages/TransactionsPage.jsx:79 | the full spinner shows exactly while loading an empty list; otherwise an empty list shows the empty state (line 209), and the pager appears exactly under a non-empty table of more than one page (line 379) |
| TransactionsPage.TransactionsView.constructor | src/pages/TransactionsPage.jsx:25-27 | the page starts sorted by date, descending, with the filter panel closed |
| TransactionsPage.TransactionsView.HandleSort | src/pages/TransactionsPage.jsx:60-67 | the new sort is the sort rule applied to the old one, and the order stays `asc` or `desc` |
| TransactionsPage.TransactionsView.ToggleFilters | src/pages/TransactionsPage.jsx:101 | the Filters button flips the panel and nothing else |
| TransactionsPage.TransactionsView.FetchCurrent | src/pages/TransactionsPage.jsx:31-39 | the effect requests exactly the current query |
| TransactionsPage.TransactionsView.HandlePageChange | src/pages/TransactionsPage.jsx:69-77 | a page change requests the query for that page with the current limit, filters and sort |
| TransactionsPage.TransactionsView.HandleFilterChange | src/pages/TransactionsPage.jsx:41-43 | dispatches the one-key filter patch and nothing else |
| TransactionsPage.TransactionsView.HandleClearFilters | src/pages/TransactionsPage.jsx:45-47 | dispatches clearFilters and nothing else |
| TransactionsPage.TransactionsView.HandleDelete | src/pages/TransactionsPage.jsx:49-58 | the delete request is sent only when the user confirms, with the deleted or failed notice by outcome; no notice without confirmation |
| Amounts.LeadingDigits | src/pages/AddTransactionPage.jsx:138-140 | the length of the longest all-digit prefix |
| Amounts.InAmountLanguage | src/pages/AddTransactionPage.jsx:139 | the language of `^\d+(\.\d{1,2})?$`: digits, optionally a point and one or two digits |
| Amounts.IsAmountText | src/pages/AddTransactionPage.jsx:139 | the executable recogniser of that language |
| Amounts.ParseCents | src/pages/AddTransactionPage.jsx:36 | the exact value of an amount text in cents |
| Amounts.CentsText | src/pages/AddTransactionPage.jsx:139 | cents written as digits, a point and two digits |
| Amounts.AmountRecogniserCorrect | src/pages/AddTransactionPage.jsx:138-140 | the recogniser accepts exactly the language of `^\d+(\.\d{1,2})?$` |
| Amounts.NatText | src/pages/AddTransactionPage.jsx:132-142 | prints a natural number as a non-empty string of digits |
| Amounts.NatTextValue | src/pages/AddTransactionPage.jsx:132-142 | the printed digits read back as the number |
| Amounts.CentsRoundTrip | src/pages/AddTransactionPage.jsx:132-142 | every cents value printed as `d.dd` is in the amount language and parses back to itself |
| Amounts.ValidateAmount | src/pages/AddTransactionPage.jsx:132-142 | accepted exactly when in the pattern's language with at least one cent, yielding those cents; "Amount is required" exactly for the empty text, "Amount must be greater than 0" exactly for a pattern match below one cent, "Please enter a valid amount" exactly for any other non-empty text |
| Amounts.AcceptsEveryPositiveCents | src/pages/AddTransactionPage.jsx:132-142 | every positive number of cents, printed, is accepted with that value |
| Amounts.AmountExamples | src/pages/EditTransactionPage.jsx:163-173 | `25.50` is 2550 cents; `0` and `0.00` are too small; `25.505` and `.5` are invalid |
| FieldChecks.Required | src/pages/ProfilePage.jsx:253-255 | a field passes `required` exactly when it is non-empty, else fails with the rule's message |
| FieldChecks.RequiredMinLength | src/pages/ProfilePage.jsx:168-174 | passes exactly at the minimum length or more; empty gives the required message, too short the length message |
| Chars.ToUpper | src/components/Layout.jsx:122 | upper-cases ASCII letters and keeps every other character |
| Chars.IndexOf | src/pages/ReportsPage.jsx:324 | the first position of a character: it is there and not before |
| Patterns.EmailRecogniserSound | src/pages/ProfilePage.jsx:197 | what the recogniser accepts is in the language of `^[^\s@]+@[^\s@]+\.[^\s@]+$` |
| Patterns.InEmailLanguage | src/pages/ProfilePage.jsx:197 | the language of `^[^\s@]+@[^\s@]+\.[^\s@]+$`, as a split at an `@` and a later point |
| Patterns.IsEmail | src/pages/LoginPage.jsx:85 | the executable recogniser: split at the first `@` |
| Patterns.EmailRecogniserComplete | src/pages/ProfilePage.jsx:197 | every string in that language is accepted by the recogniser |
| Patterns.EmailRecogniserCorrect | src/pages/LoginPage.jsx:85 | recogniser and language agree in both directions |
| Patterns.ValidateEmail | src/pages/ProfilePage.jsx:194-200 | valid exactly in the email language; "Email is required" exactly for the empty string; "Please enter a valid email address" exactly for a non-empty string outside the language |
| Patterns.EmailWithPointsExample | src/pages/ProfilePage.jsx:197 | an address with points in local part and domain is accepted |
| Patterns.EmailTwoAtsExample | src/pages/ProfilePage.jsx:197 | an address with two `@` is refused |
| Patterns.EmailPointAtDomainEndsExample | src/pages/ProfilePage.jsx:197 | a domain whose only point is at its start or end is refused |
| Patterns.Scan | src/pages/ProfilePage.jsx:293 | one pass records whether all characters are allowed and whether a lower-case letter, a capital and a digit occur |
| Patterns.InPasswordLanguage | src/pages/ProfilePage.jsx:293 | the language of the password pattern, with its look-aheads as written |
| Patterns.IsStrongPassword | src/pages/ProfilePage.jsx:293 | the executable recogniser: at least 8 characters and one scan |
| Patterns.LookaheadIsMembership | src/pages/ProfilePage.jsx:293 | on a string without line terminators, a `(?=.*[x])` lookahead holds exactly when some character is of class x |
| Patterns.PasswordRecogniserCorrect | src/pages/ProfilePage.jsx:293 | the recogniser accepts exactly the language of the password pattern with its three lookaheads |
| Patterns.ValidateNewPassword | src/pages/ProfilePage.jsx:286-296 | valid exactly in the password language; the required message exactly for the empty string; the length message exactly for 1 to 7 characters; the classes message exactly for 8 or more characters outside the language |
| Patterns.StrongPasswordExample | src/pages/ProfilePage.jsx:286-296 | `Secret123` is accepted |
| Patterns.DisallowedCharacterExample | src/pages/ProfilePage.jsx:293 | `Secret12#` is refused with the strength message, `#` being outside the allowed set |
| Patterns.WeakPasswordExamples | src/pages/ProfilePage.jsx:286-296 | passwords missing a capital, a lower-case letter or a digit are refused |
| TransactionForms.Offered | src/pages/AddTransactionPage.jsx:29 | the income catalogue for the income type and the expense catalogue for every other type |
| TransactionForms.QuickAdd | src/pages/AddTransactionPage.jsx:276 | the Quick Add tiles are the first eight categories, or all of them when fewer |
| TransactionForms.DatePart | src/pages/AddTransactionPage.jsx:25 | the date part is the prefix before the first `T`, or all of the text without one |
| TransactionForms.DatePartOfTimestamp | src/pages/EditTransactionPage.jsx:39 | an ISO timestamp `dayTtime` is cut to `day`, and a bare day is kept |
| TransactionForms.DatePartIdempotent | src/pages/EditTransactionPage.jsx:39 | cutting twice gives the same as cutting once |
| TransactionForms.Submission | src/pages/AddTransactionPage.jsx:31-38 | submission succeeds exactly when all four field rules pass; the payload carries the amount the rules yield (at least 0.01), the fields as held and the page's selected type, and a failure carries every field's result |
| TransactionForms.SubmissionIgnoresFormType | src/pages/AddTransactionPage.jsx:37 | the form's own `type` value has no effect on what is sent |
| TransactionForms.CoffeeExample | src/pages/AddTransactionPage.jsx:31-38 | a complete expense form for `25.50` sends the amount 25.5 with type EXPENSE |
| TransactionForms.AmountRules | src/pages/AddTransactionPage.jsx:132-142 | typed text passes exactly when the amount rules accept it, yielding its value in cents over 100, and otherwise fails with their message; a loaded number passes exactly from 0.01 on, unchanged, and otherwise fails with the minimum's message |
| TransactionForms.TypedAmountIsCents | src/pages/AddTransactionPage.jsx:36 | any positive cents typed as `d.dd` are sent as exactly that value |
| TransactionForms.LoadedAmountSkipsPattern | src/pages/EditTransactionPage.jsx:35-36 | a loaded 25.505 passes, where the same typed text fails the pattern |
| TransactionForms.ValidateForm | src/pages/AddTransactionPage.jsx:132-237 | each field passes exactly under its rules: the amount rules, a description of 3 or more, a category and a date |
| TransactionForms.CategoryFits | src/pages/AddTransactionPage.jsx:51-58 | the form category is unset or one of the offered ids |
| TransactionForms.LoadForm | src/pages/EditTransactionPage.jsx:35-41 | loading holds the server's amount as a number, copies description and category, cuts the date before `T`, and turns missing notes into the empty string |
| TransactionForms.UneditedFormResubmits | src/pages/EditTransactionPage.jsx:35-74 | an untouched loaded form passes exactly when the amount is at least 0.01, the description has 3 characters, and category and date are set; it sends the server's values back |
| TransactionForms.WithText | src/pages/AddTransactionPage.jsx:132-237 | typing into one input replaces that field, an amount becoming text |
| TransactionForms.AddTransactionPage.constructor | src/pages/AddTransactionPage.jsx:12-26 | the page starts as an expense with today's date and the type field EXPENSE |
| TransactionForms.AddTransactionPage.HandleTypeChange | src/pages/AddTransactionPage.jsx:51-58 | switching the type sets the page and form type and clears the category, keeping the other fields |
| TransactionForms.AddTransactionPage.SelectCategory | src/pages/AddTransactionPage.jsx:191-193 | choosing an option sets the category to that entry of the type's catalogue, or to empty for the placeholder |
| TransactionForms.AddTransactionPage.Input | src/pages/AddTransactionPage.jsx:132-237 | typing replaces exactly one text field |
| TransactionForms.AddTransactionPage.OnSubmit | src/pages/AddTransactionPage.jsx:31-49 | a passing form sends the create request; on success it refetches the dashboard, gives the added notice and is on `/transactions`; on failure it gives the failure notice and stays where it was; a failing form sends nothing, gives no notice and stays; storage and the class are untouched; loading ends false after a request |
| TransactionForms.EditTransactionPage.constructor | src/pages/EditTransactionPage.jsx:14-16 | the page starts as an expense, not loading, with the initial load pending |
| TransactionForms.EditTransactionPage.Load | src/pages/EditTransactionPage.jsx:30-53 | with an id, fetches it and fills type and form from it, staying on the page; on failure gives the load-failed notice and is on `/transactions`; the initial load ends either way; without an id nothing is requested, and the form, type, flags and pathname stay |
| TransactionForms.EditTransactionPage.HandleTypeChange | src/pages/EditTransactionPage.jsx:76-79 | switching the type clears only the category |
| TransactionForms.EditTransactionPage.Input | src/pages/EditTransactionPage.jsx:163-251 | typing replaces exactly one text field; type and both loading flags stay |
| TransactionForms.EditTransactionPage.OnSubmit | src/pages/EditTransactionPage.jsx:55-74 | a passing form sends the update for the page's id with the selected type; after success it gives the updated notice and is on `/transactions`, otherwise it gives the failure notice and stays where it was; a failing form sends nothing and gives no notice; storage, the class and the initial-load flag are untouched |
| ProfilePage.DefaultProfile | src/pages/ProfilePage.jsx:40-45 | the profile form starts from the user's name and email, or empty without a user |
| ProfilePage.ValidateProfile | src/pages/ProfilePage.jsx:168-200 | the name passes from 2 characters on, its required message exactly when empty and its length message exactly for one character; the email passes exactly in the email language, its required message exactly when empty and its invalid message exactly for other text |
| ProfilePage.ValidateConfirm | src/pages/ProfilePage.jsx:327-331 | the confirmation passes exactly when non-empty and equal to the new password; otherwise its required or mismatch message |
| ProfilePage.ValidatePasswordForm | src/pages/ProfilePage.jsx:253-331 | the current password passes exactly when given, the new one exactly in the password language, the confirmation exactly when given and equal |
| ProfilePage.PasswordRequest | src/pages/ProfilePage.jsx:78-84 | a request is made exactly when the current password is given, the new one is strong and the confirmation matches; it carries the current and new password only |
| ProfilePage.RequestedPasswordIsStrong | src/pages/ProfilePage.jsx:286-331 | a request's new password equals the confirmation and has at least 8 characters |
| ProfilePage.ProfileView.constructor | src/pages/ProfilePage.jsx:24-45 | starts on the profile tab with every toggle off and nothing loading |
| ProfilePage.ProfileView.SyncUser | src/pages/ProfilePage.jsx:57-64 | a user change refills the profile form from that user and nothing else |
| ProfilePage.ProfileView.SelectTab | src/pages/ProfilePage.jsx:135 | selecting a tab changes only the active tab: forms, eye flags and both loading flags stay |
| ProfilePage.ProfileView.ToggleShow | src/pages/ProfilePage.jsx:263-339 | each of the three eye buttons (lines 263, 304 and 339) flips its own field's visibility; the other flags, the tab, both forms and both loading flags stay |
| ProfilePage.ProfileView.EditPassword | src/pages/ProfilePage.jsx:253-331 | typing sets the password form and nothing else |
| ProfilePage.ProfileView.OnProfileSubmit | src/pages/ProfilePage.jsx:66-76 | a passing form sends name and email; the button is enabled again afterwards; the notice reflects the outcome |
| ProfilePage.ProfileView.OnPasswordSubmit | src/pages/ProfilePage.jsx:78-92 | a passing form sends the change request; the form is cleared only on success; `passwordLoading` ends false either way |
| ProfilePage.ProfileView.HandleThemeToggle | src/pages/ProfilePage.jsx:94-97 | toggles the store's theme, writes only the `theme` key and stays on the page; the notice names the theme opposite the old one, which is the theme now in force |
| LoginPage.ValidateLogin | src/pages/LoginPage.jsx:82-115 | the email passes exactly in the email language, its required message exactly when empty and its invalid message exactly for other text; the password passes from 6 characters on, its required message exactly when empty and its length message exactly for 1 to 5 characters |
| LoginPage.LoginAccepted | src/pages/LoginPage.jsx:71 | the submit handler runs exactly when both fields pass |
| LoginPage.ErrorNotice | src/pages/LoginPage.jsx:26-30 | the slice's error is shown exactly when it is a non-empty message |
| LoginPage.LoginEffects | src/pages/LoginPage.jsx:32-45 | a submission sends the login request; on success it then stores the token, then the user, then moves to `/dashboard` |
| LoginPage.FailedLoginStays | src/pages/LoginPage.jsx:42-44 | a failed login stores nothing and does not navigate |
| LoginPage.LoginView.Mount | src/pages/LoginPage.jsx:22-24 | mounting clears the slice's error |
| LoginPage.LoginView.ToggleShowPassword | src/pages/LoginPage.jsx:123 | the eye button flips the password's visibility |
| LoginPage.LoginView.OnSubmit | src/pages/LoginPage.jsx:32-45 | failing fields send nothing, write nothing and stay; a failed login writes nothing and stays; a success stores token and user and is on `/dashboard` |
| ReportsPage.MockSeriesShape | src/pages/ReportsPage.jsx:46-62 | the week series has seven days from Mon to Sun; the year series has five years of rising income |
| ReportsPage.ChartData | src/pages/ReportsPage.jsx:64-73 | this week's range shows the week series, this year's the year series, any other value the monthly data |
| ReportsPage.InitialRangeShowsMonthly | src/pages/ReportsPage.jsx:36 | the initial range shows the monthly data |
| ReportsPage.Growth | src/pages/ReportsPage.jsx:75-78 | the growth is 0 against a zero baseline and otherwise the relative change in percent |
| ReportsPage.MockGrowth | src/pages/ReportsPage.jsx:80-81 | against the mock baselines the growth is 100/9 and 300/17 percent for any non-zero total, and 0 for a zero total |
| ReportsPage.PercentOf | src/pages/ReportsPage.jsx:183 | the savings rate, and each category's share at line 330, is 0 unless the whole is positive, and otherwise the part over the whole in percent |
| ReportsPage.PercentBounds | src/pages/ReportsPage.jsx:183 | a part between 0 and the whole gives a percentage between 0 and 100 |
| ReportsPage.SumPercentages | src/pages/ReportsPage.jsx:329-330 | the sum of the category shares |
| ReportsPage.SavingsVerdict | src/pages/ReportsPage.jsx:377 | the insight's verdict is `excellent` or `good` |
| ReportsPage.VerdictMatchesRate | src/pages/ReportsPage.jsx:377 | with a positive income the verdict is `excellent` exactly when the displayed rate exceeds 20 |
| ReportsPage.ZeroIncomeVerdict | src/pages/ReportsPage.jsx:377 | with zero income and a positive balance the page shows a 0% rate called excellent |
| ReportsPage.SumPercentagesScales | src/pages/ReportsPage.jsx:329-330 | the shares add up to the categories' total over the expenses, in percent |
| ReportsPage.SharesAddUp | src/pages/ReportsPage.jsx:329-330 | when the expenses are the categories' total, the shares add up to 100 |
| ReportsPage.ColorAt | src/pages/ReportsPage.jsx:299 | a colour is found exactly for a non-empty palette, and it is the entry at index mod palette length |
| ReportsPage.ColorsCycle | src/pages/ReportsPage.jsx:336 | colours repeat with the palette's length, and the first entries take the palette in order |
| ReportsPage.NeighboursDiffer | src/pages/ReportsPage.jsx:299 | with distinct palette colours, neighbouring entries never share a colour |
| ReportsPage.LargestCategoryLabel | src/pages/ReportsPage.jsx:383 | the first category's name, or `N/A` for no categories or an empty name |
| ReportsPage.ReplaceFirst | src/pages/ReportsPage.jsx:324 | replacing with a string pattern changes only the first occurrence, or nothing without one |
| ReportsPage.ReplaceFirstRemovesOne | src/pages/ReportsPage.jsx:324 | the replacement removes exactly one `_` and adds exactly one space |
| ReportsPage.CapitaliseWords | src/pages/ReportsPage.jsx:324 | every character that starts a word (a `\w` after a non-`\w` or the start) is upper-cased, every other kept |
| ReportsPage.CapitaliseIdempotent | src/pages/ReportsPage.jsx:324 | capitalising a second time changes nothing |
| ReportsPage.CapitaliseFrom | src/pages/ReportsPage.jsx:324 | the capitalising scan: away from the start, word starts upper-cased and the rest kept; the start is upper-cased only after a non-word character |
| ReportsPage.RangeLabel | src/pages/ReportsPage.jsx:324 | position by position: the first `_` becomes a space, a word character that starts a word of the result (at the start, after a non-word character or after the replaced `_`) is upper-cased, every other character is kept |
| ReportsPage.ReplaceAtFour | src/pages/ReportsPage.jsx:324 | supports the two range-label examples: a text whose first `_` is at position 4 has exactly that one replaced |
| ReportsPage.CapitaliseExample | src/pages/ReportsPage.jsx:324 | supports `RangeLabelExample`: `this month` is capitalised to `This Month` |
| ReportsPage.CapitaliseAfterUnderscoreExample | src/pages/ReportsPage.jsx:324 | supports `RangeLabelSecondUnderscore`: `last 3_months` is capitalised to `Last 3_months` |
| ReportsPage.RangeLabelExample | src/pages/ReportsPage.jsx:324 | `this_month` is headed `This Month` |
| ReportsPage.RangeLabelSecondUnderscore | src/pages/ReportsPage.jsx:324 | `last_3_months` is headed `Last 3_months`: the second `_` stays and joins `3` and `months` as one word |
| Layout.IsActive | src/components/Layout.jsx:96 | an entry is active exactly when the pathname equals its target |
| Layout.NavigationHrefsDistinct | src/components/Layout.jsx:28-34 | the five navigation targets are pairwise distinct |
| Layout.AtMostOneActive | src/components/Layout.jsx:96 | at most one entry is highlighted, and one is exactly when the pathname is a target |
| Layout.NavigationTargetsAreProtected | src/components/Layout.jsx:28-34 | every entry leads to a protected route that an authenticated user sees inside the layout |
| Layout.AvatarInitial | src/components/Layout.jsx:122 | the avatar shows one character: the name's first, upper-cased, or `U` without a name |
| Layout.DisplayName | src/components/Layout.jsx:127 | the name, or `User` without one |
| Layout.ThemeTitle | src/components/Layout.jsx:140 | the tooltip names the theme a click switches to |
| Layout.ThemeIcon | src/components/Layout.jsx:142 | a moon exactly in light mode |
| Layout.ThemeButtonForetellsToggle | src/components/Layout.jsx:140-142 | the tooltip names the theme a click produces, and the icon changes with every click |
| Layout.SidebarAfter | src/components/Layout.jsx:57-165 | only the menu button opens the sidebar; backdrop, close button and navigation close it |
| Layout.SidebarAfterAll | src/components/Layout.jsx:21 | the sidebar after a run of events |
| Layout.SidebarLastEventDecides | src/components/Layout.jsx:21 | after any run of events the sidebar is open exactly when the last one was the menu button |
| Layout.LayoutView.constructor | src/components/Layout.jsx:21 | the sidebar starts closed |
| Layout.LayoutView.HandleSidebar | src/components/Layout.jsx:57 | the backdrop, the close button (line 83) and the menu button (line 165) set the sidebar as the sidebar rule says |
| Layout.LayoutView.ClickNavItem | src/components/Layout.jsx:98-105 | following an entry moves to its target, where it is active, and closes the sidebar |
| Layout.LayoutView.HandleLogout | src/components/Layout.jsx:36-44 | logout asks the server first and moves to `/login` only when that succeeds; the notice reflects the outcome; the class is untouched |
| Layout.LayoutView.HandleThemeToggle | src/components/Layout.jsx:46-48 | either theme button applies the store's toggle, writes only the `theme` key, stays on the page and leaves the sidebar as it is |
| Host.Browser.GetItem | src/App.jsx:26 | reading storage yields the stored value, or null for a missing key |
| Host.Browser.Emit | src/pages/LoginPage.jsx:34 | records a dispatch or request and changes nothing else |
| Host.Browser.SetItem | src/store/slices/uiSlice.js:15 | writing storage updates that key and records the write |
| Host.Browser.AddDark | src/App.jsx:28 | adds the `dark` class and records it |
| Host.Browser.RemoveDark | src/store/slices/uiSlice.js:20 | removes the `dark` class and records it |
| Host.Browser.NavigateTo | src/pages/LoginPage.jsx:40 | navigation sets the pathname and records it |

## Left out

- Rendering, styling, icons other than the theme icon, toasts as UI, and the chart library: only the values they receive are modelled.
- Asynchrony: each handler runs atomically, with the server's answer as a parameter. The interim `loading = true` while a request is in flight is therefore not observable.
- The Redux auth and transaction slices, `ProtectedRoute`, `authService`, `transactionService`, `DATE_RANGES`, `CHART_COLORS`, `TRANSACTION_TYPES` and the category lists are not part of this model. They are parameters: the range names, the palette, the catalogue, and whether a request succeeded. `ProtectedRoute` is taken to show its child when authenticated and to redirect to `/login` otherwise. `TRANSACTION_TYPES.INCOME` is taken to be `INCOME`.
- The slice's handling of `setFilters`, `clearFilters` and the pagination it stores: the model stops at the dispatched action.
- Route matching is exact. The router's case-insensitive matching, trailing-slash tolerance and URL decoding of `:id` are left out.
- Amounts.ValidateAmount: a non-empty text outside `^\d+(\.\d{1,2})?$` always gets "Please enter a valid amount". The form library checks `min` (0.01 on `Number(value)`) before the pattern, so a text like `-1` or `1e-5` would get "Amount must be greater than 0" instead. JavaScript number parsing is not modelled.
- `parseFloat` of the amount: the payload carries the exact decimal value as a Dafny `real`, not a floating-point number.
- Floating point in the reports page: growth, rates and shares are over Dafny `real`. `toFixed` rounding and the inexact `0.9` and `0.85` are not modelled. The unguarded ratio at `ReportsPage.jsx:377` is treated as IEEE division by zero gives: positive infinity for a positive balance, and negative infinity or NaN otherwise.
- Lengths count characters, not UTF-16 code units, for `minLength`, `slice` and `charAt`. `toUpperCase` is modelled for ASCII letters only: a non-ASCII initial such as `ß`, which JavaScript expands to two characters, is kept as it is.
- `JSON.stringify(response.user)` is taken as the text the server's answer provides.
- The Quick Add tiles write the category straight into the DOM `select`, bypassing the form state. The model gives the tiles and the `select` as `SelectCategory`, but not the DOM write.
- `dateRange` and `chartType` setters, `handleExportData`, `handleDeleteAccount` and the Dashboard refetch on range change: they only show notices or re-dispatch a fetch without parameters.
- The `useEffect` that shows `error` on the login page is modelled as the `ErrorNotice` choice, not as an effect.
- Layout keeps its own `sidebarOpen` with `useState`. The slice's `toggleSidebar` and `closeSidebar` are modelled but are not what Layout uses.
- The browser's own constraint validation, which runs before the submit handlers since no form sets `noValidate`: `type="email"` on the login and profile email fields (`LoginPage.jsx:89`, `ProfilePage.jsx:201`), and `type="number"` with `step="0.01"` on the amount (`AddTransactionPage.jsx:143-144`, `EditTransactionPage.jsx:174-175`). Only the form library's rules are modelled. An address the pattern accepts but the browser refuses, such as `a(b)@c.d`, or an amount off the 0.01 step, such as `25.505`, is never submitted by a real browser. The model submits the first and shows the pattern message for the second. A number input also never holds non-numeric text.
- Layout.LayoutView.HandleLogout: says nothing about storage. Clearing the token and the user is the logout thunk's job, and the auth slice is not part of this model.
- LoginPage.LoginView.OnSubmit: the storage writes stated are the page's own two `setItem` calls (`LoginPage.jsx:36-37`). Whatever the `loginUser` thunk itself writes to storage is not modelled, because the auth slice is not part of this model. The same holds for `LoginPage.FailedLoginStays`.
