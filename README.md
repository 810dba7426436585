# Expense management core: a Dafny model

This project models the core of an expense-management application in which
companies sign up an admin, employees submit expenses, and managers approve them.
It has two halves:

- The **backend** (Python):
  - the expense table operations (create, list by employee, the manager's queue, status update);
  - the manager's approval endpoints;
  - the utility endpoints that list countries with their currencies and look up conversion rates.
- The **front end** (TypeScript/React):
  - the signup and login forms, and the three sign-in pages;
  - the avatar and status-chip atoms;
  - the two dashboard frames;
  - the country picker;
  - the root component of the single-page app;
  - the hooks that hold users, expenses and approval rules, and that convert expense amounts.

How the model takes each kind of source code:

- Code that computes a value becomes a function, with lemmas about it.
- A component or hook whose state changes becomes a class:
  - its `useState` values are fields;
  - each handler is a method with `modifies` and a full post-state.
- An asynchronous handler is cut at its `await`: what it awaited arrives as a parameter.
  - `Outcome<T>`, `Returned(v)` or `Threw`, stands for an API call.
  - `Upstream<T>` stands for an HTTP call in the backend.
- Clocks (`Date.now()`) give ids that arrive as parameters.
- `localeCompare` is an abstract total preorder.

Shared modules:

- `Common` holds:
  - `Option` and `Outcome`;
  - the JavaScript whitespace set used by `trim` and `\s`;
  - the `\S+@\S+\.\S+` email test, as a bounded existential;
  - substring search, ASCII upper-casing, and JavaScript's `length`, which counts UTF-16 code units.
- `Sorting` holds a stable insertion sort by key. It is proved to give a sorted permutation that keeps tied elements in order. It serves Python's `list.sort(key=...)` under Python's string order, which is proved to be a total preorder. It also serves JavaScript's `sort` with `localeCompare`.

Two implementations of the country list disagree, which `CountrySelector.EmptyCurrencyObject` shows. Take a country whose currency object is empty:

- The front-end picker keeps it, because `{}` is truthy. Selecting it then reports an `undefined` currency.
- The backend endpoint drops it.

## Model

| member | source | states |
|---|---|---|
| ExpenseCrud.FindUser | backend/app/crud/crud_expense.py:13 | the first user row with that id, or none |
| ExpenseCrud.FindExpense | backend/app/crud/crud_expense.py:56 | the index of the first expense row with that id, or none when no row has it |
| ExpenseCrud.ExpensesByEmployee | backend/app/crud/crud_expense.py:28-32 | exactly the rows of that employee, each as often as in the table |
| ExpenseCrud.SubordinateIds | backend/app/crud/crud_expense.py:41 | an id is listed iff some user row with that id names the manager as its manager |
| ExpenseCrud.FilterPendingFrom | backend/app/crud/crud_expense.py:43-50 | an expense is kept iff it is pending approval and its employee is among the ids |
| ExpenseCrud.ExpensesForManagerApproval | backend/app/crud/crud_expense.py:34-50 | an expense is in the queue iff it is pending approval and its employee reports directly to the manager |
| ExpenseCrud.OnlyDirectReports | backend/app/crud/crud_expense.py:38-41 | reporting is not transitive: an employee whose rows name another manager adds nothing to the queue |
| ExpenseCrud.Database.constructor | backend/app/db/base.py:87-92 | the tables start valid: primary keys unique and every expense's employee present (the keys), and that employee's company is the expense's company (not a key, but an invariant `create_expense` keeps) |
| ExpenseCrud.Database.CreateExpense | backend/app/crud/crud_expense.py:8-26 | an unknown employee gives none and no change; otherwise one row is appended with the employee's company and status pending approval, and the table invariant holds |
| ExpenseCrud.Database.UpdateExpenseStatus | backend/app/crud/crud_expense.py:52-61 | sets the status of the first row with that id and changes nothing else; with unique keys that row is the only one with the id; none and no change when no row has it |
| ManagerApi.DecisionStatus | backend/app/api/v1/endpoints/manager.py:41 | approved iff `approved`, rejected otherwise; never draft or pending |
| ManagerApi.GetPendingApprovals | backend/app/api/v1/endpoints/manager.py:15-23 | the current user's queue: pending expenses of direct reports and nothing else |
| ManagerApi.UpdateApprovalStatus | backend/app/api/v1/endpoints/manager.py:27-46 | 404 "Expense not found" with no change for an unknown id; otherwise the status is set and the message names the new status value |
| ManagerApi.SuccessMessages | backend/app/api/v1/endpoints/manager.py:46 | the two messages read "approved" and "rejected" |
| CountryUtils.Entry | backend/app/api/v1/endpoints/utils.py:41-45 | a listed country's entry is its common name and its first currency key |
| CountryUtils.Normalised | backend/app/api/v1/endpoints/utils.py:36-45 | every entry comes from a country with a non-empty currency object, and every such country gives its entry |
| CountryUtils.UpstreamError | backend/app/api/v1/endpoints/utils.py:51-54 | an upstream error status is passed through; a connection failure becomes 503 |
| CountryUtils.GetCountriesAndCurrencies | backend/app/api/v1/endpoints/utils.py:24-54 | an upstream failure maps to its error; otherwise the loop's entries sorted by name: sorted, a permutation, no longer than the upstream list, ties kept in upstream order |
| CountryUtils.ConvertCurrency | backend/app/api/v1/endpoints/utils.py:56-90 | upstream failures map to their errors; missing or empty rates or an unknown upper-cased target give 404; success iff the rate exists, with both codes upper-cased |
| Sorting.SortByPermutes | backend/app/api/v1/endpoints/utils.py:48 | sorting keeps the same multiset of elements |
| Sorting.SortBySorted | backend/app/api/v1/endpoints/utils.py:48 | under a total preorder, the result is sorted by key |
| Sorting.SortByStable | frontend/src/components/molecules/CountrySelector.tsx:38-40 | elements with equal keys keep their relative order |
| Sorting.PyLeqTotalPreorder | backend/app/api/v1/endpoints/utils.py:48 | Python's string comparison is total and transitive, so the sort lemmas apply to it |
| Common.Utf16Length | frontend/components/SignupPage.tsx:43 | JavaScript's `length`: between one and two units per character, and equal to the character count iff no character lies outside the Basic Multilingual Plane |
| SignupForm.With | frontend/src/components/organisms/SignupForm.tsx:78-81 | the edited field takes the value and every other field is kept |
| SignupForm.ErrorsForUnique | frontend/src/components/organisms/SignupForm.tsx:34-65 | the validation outcome is a function of the form data |
| SignupForm.EmptyFormErrors | frontend/src/components/organisms/SignupForm.tsx:34-65 | an empty form is refused on every field except the currency |
| SignupForm.FilledFormPasses | frontend/src/components/organisms/SignupForm.tsx:34-65 | every form with a non-blank name, an accepted email, a password of at least six UTF-16 units confirmed exactly, and a country has no errors, whatever the currency |
| SignupForm.SampleFormFilled | frontend/src/components/organisms/SignupForm.tsx:37-49 | a sample form ("Ann", "ann@corp.io", "secret1") meets the name, email and password rules |
| SignupForm.SignupFormComponent.ValidateForm | frontend/src/components/organisms/SignupForm.tsx:34-65 | the errors are exactly those the validation rules give, with their messages (the password length counted in UTF-16 code units), and the result is true iff there are none |
| SignupForm.SignupFormComponent.HandleSubmit | frontend/src/components/organisms/SignupForm.tsx:67-73 | the data is submitted iff it validates |
| SignupForm.SignupFormComponent.HandleInputChange | frontend/src/components/organisms/SignupForm.tsx:75-90 | the field takes the value and only that field's error is cleared |
| SignupForm.SignupFormComponent.HandleCurrencyChange | frontend/src/components/organisms/SignupForm.tsx:122-124 | the currency is set and the errors are untouched |
| LoginForm.With | frontend/src/components/organisms/LoginForm.tsx:53-56 | the edited field takes the value and the other is kept |
| LoginForm.BothErrorsAtOnce | frontend/src/components/organisms/LoginForm.tsx:25-40 | an empty form gets both error messages |
| LoginForm.NoPasswordMinimum | frontend/src/components/organisms/LoginForm.tsx:34-36 | any non-empty password passes next to a valid email |
| LoginForm.EmailNeedsAt | frontend/src/components/organisms/LoginForm.tsx:30 | a string without an `@` never passes the email test |
| LoginForm.LoginFormComponent.ValidateForm | frontend/src/components/organisms/LoginForm.tsx:25-40 | the errors are exactly those the two rules give, and the result is true iff there are none |
| LoginForm.LoginFormComponent.HandleSubmit | frontend/src/components/organisms/LoginForm.tsx:42-48 | the data is submitted iff it validates |
| LoginForm.LoginFormComponent.HandleInputChange | frontend/src/components/organisms/LoginForm.tsx:50-65 | the field takes the value and only that field's error is cleared |
| SignupPage.SignupPageComponent.HandleSubmit | frontend/components/SignupPage.tsx:35-49 | a mismatched confirmation is reported before a password shorter than six UTF-16 code units; only a submission passing both calls `onSignup`, with the four inputs |
| SignupPage.SignupPageComponent.CountriesLoaded | frontend/components/SignupPage.tsx:29-33 | the first country is chosen only when the list is non-empty and nothing is chosen yet |
| SignupPage.AstralPasswordLongEnough | frontend/components/SignupPage.tsx:43 | three characters from outside the Basic Multilingual Plane count as six, so such a password is long enough |
| ResetPasswordPage.ResetPasswordComponent.HandleSubmit | frontend/components/ResetPasswordPage.tsx:24-35 | an empty email gives the error and no request; otherwise the email is requested and the same neutral text shows |
| ResetPasswordPage.ResetPasswordComponent.ChangeEmail | frontend/components/ResetPasswordPage.tsx:44-47 | editing the email clears the message |
| LoginPage.LoginPageComponent.BeginLogin | frontend/src/pages/auth/LoginPage.tsx:16 | loading starts before the awaited step |
| LoginPage.RoleFromEmail | frontend/src/pages/auth/LoginPage.tsx:27-28 | admin iff the email contains "admin"; manager iff it contains "manager" but not "admin"; employee otherwise |
| LoginPage.MissingLetter | frontend/src/pages/auth/LoginPage.tsx:27-28 | the substring test is case-sensitive: a missing letter rules a word out |
| LoginPage.UpperCaseIsEmployee | frontend/src/pages/auth/LoginPage.tsx:27-28 | an upper-case admin address is treated as an employee |
| LoginPage.AdminBeatsManager | frontend/src/pages/auth/LoginPage.tsx:27-28 | "admin" is tested before "manager" |
| LoginPage.LoginPageComponent.FinishLogin | frontend/src/pages/auth/LoginPage.tsx:30-47 | success navigates to the role's dashboard; loading ends either way |
| Avatar.SizeOrDefault | frontend/src/components/atoms/Avatar.tsx:11 | an absent size means medium |
| Avatar.Split | frontend/src/components/atoms/Avatar.tsx:19 | at least one piece, none containing a space |
| Avatar.JoinSplit | frontend/src/components/atoms/Avatar.tsx:19 | joining the pieces with spaces gives the name back |
| Avatar.HeadsAreWordStarts | frontend/src/components/atoms/Avatar.tsx:18-21 | the pieces' first characters are exactly the name's non-space characters at its start or after a space |
| Avatar.Initials | frontend/src/components/atoms/Avatar.tsx:18-23 | at most two characters, none of them a lower-case ASCII letter |
| Avatar.InitialsAreFirstWordStarts | frontend/src/components/atoms/Avatar.tsx:18-23 | the initials are the first two word starts, upper-cased; at most two characters |
| Avatar.TwoWordName | frontend/src/components/atoms/Avatar.tsx:18-23 | "ann lee" shows "AL" |
| Avatar.AvatarContent | frontend/src/components/atoms/Avatar.tsx:35-43 | the picture iff a non-empty source is given, with the name as its text; the initials otherwise |
| StatusChip.VariantStatus | frontend/src/components/atoms/StatusChip.tsx:17-19 | no status means the pending variant |
| StatusChip.ReplaceFirst | frontend/src/components/atoms/StatusChip.tsx:31 | the length is kept and a string without the character is unchanged |
| StatusChip.ReplaceFirstAt | frontend/src/components/atoms/StatusChip.tsx:31 | only the first occurrence is replaced, and everything after it is kept |
| StatusChip.HyphenatedLabel | frontend/src/components/atoms/StatusChip.tsx:31 | without children, a hyphenated key shows its upper-cased parts joined by a space |
| StatusChip.WaitingApprovalLabel | frontend/src/components/atoms/StatusChip.tsx:31 | "waiting-approval" shows as the two upper-cased words |
| StatusChip.PlainLabels | frontend/src/components/atoms/StatusChip.tsx:31 | every status but "waiting-approval" shows its key upper-cased when there are no children or empty ones |
| StatusChip.UpperLabels | frontend/src/components/atoms/StatusChip.tsx:31 | the upper-cased keys read PENDING, APPROVED, REJECTED and DRAFT, and the two words of the fifth WAITING and APPROVAL |
| StatusChip.ReplacesOnlyFirst | frontend/src/components/atoms/StatusChip.tsx:31 | a second hyphen would stay |
| StatusChip.DisplayText | frontend/src/components/atoms/StatusChip.tsx:31 | non-empty children are shown as given, for every status; otherwise the text is as long as the key, and a key without a hyphen is shown upper-cased |
| TabLayout.HeaderText | frontend/components/DashboardLayout.tsx:23-25 | the header is the user's name followed by the role in parentheses, " (" + role + ")" |
| TabLayout.TabLabel | frontend/components/DashboardLayout.tsx:46 | only the first character is upper-cased; the length is kept |
| TabLayout.Labels | frontend/components/DashboardLayout.tsx:46 | the tabs "users" and "team" are labelled "Users" and "Team" |
| TabLayout.NavBar | frontend/components/DashboardLayout.tsx:34-50 | the row shows iff a non-empty active tab and a handler are given; one button per tab, highlighted iff it is the active one |
| TabLayout.ClickedTab | frontend/components/DashboardLayout.tsx:39 | a click reports that button's own tab |
| TabLayout.AtMostOneActive | frontend/components/DashboardLayout.tsx:36-44 | at most one button is highlighted |
| TabLayout.ClickHighlights | frontend/components/DashboardLayout.tsx:39-44 | the clicked tab becomes the highlighted one |
| RoleNavigation.Navigation | frontend/src/components/templates/DashboardLayout.tsx:34-51 | admins and employees get three links, managers two |
| RoleNavigation.RolePages | frontend/src/App.tsx:44-83 | every role page is a routed path |
| RoleNavigation.NavigationIsRouted | frontend/src/components/templates/DashboardLayout.tsx:34-51 | the first link is the dashboard the sign-in page sends the role to; every link is one of the role's routed pages; no two links share a path |
| RoleNavigation.LogoutTarget | frontend/src/components/templates/DashboardLayout.tsx:29-32 | logout leads to a routed page |
| RoleNavigation.HeaderAvatar | frontend/src/components/templates/DashboardLayout.tsx:89 | the header avatar shows the user's initials at the small size |
| CountrySelector.WithCurrencies | frontend/src/components/molecules/CountrySelector.tsx:37 | a country is kept iff it has a currency object, an empty one included, each as often as in the data |
| CountrySelector.LoadedIsSortedFilter | frontend/src/components/molecules/CountrySelector.tsx:36-40 | the loaded list is sorted by name, a permutation of the kept countries, and keeps tied names in service order |
| CountrySelector.EmptyCurrencyObject | frontend/src/components/molecules/CountrySelector.tsx:37 | a country with an empty currency object is listed here but dropped by the backend endpoint |
| CountrySelector.FindByCode | frontend/src/components/molecules/CountrySelector.tsx:57 | the first country with that code, or none |
| CountrySelector.FirstKey | frontend/src/components/molecules/CountrySelector.tsx:59 | the first currency key, or undefined for an empty object |
| CountrySelector.CountrySelectorComponent.FetchCountries | frontend/src/components/molecules/CountrySelector.tsx:27-51 | success stores the sorted, filtered list; failure keeps the list; loading ends either way; only countries with currencies are listed |
| CountrySelector.CountrySelectorComponent.HandleCountryChange | frontend/src/components/molecules/CountrySelector.tsx:53-62 | the value callback fires first; the currency callback follows iff the code is listed, with the first match's first key |
| CountrySelector.CountrySelectorComponent.Placeholder | frontend/src/components/molecules/CountrySelector.tsx:69 | the loading text shows iff the list is loading |
| AppShell.AdminExists | frontend/App.tsx:55 | true iff some user has the role "Admin" |
| AppShell.BaseCurrencyFor | frontend/App.tsx:89-90 | the first same-named country's non-empty code, otherwise "USD"; never empty |
| AppShell.PrependedAdminExists | frontend/App.tsx:83-91 | once the new admin is in the list, an admin exists |
| AppShell.AppShellComponent.HandleLogin | frontend/App.tsx:57-71 | success signs the user in; failure reports the server's non-empty detail or the default text, and changes nothing |
| AppShell.AppShellComponent.HandleSignup | frontend/App.tsx:73-97 | refused with no change when an admin exists; otherwise the admin is prepended and signed in and the base currency set; afterwards an admin always exists, so a second signup is refused |
| AppShell.AppShellComponent.HandleLogout | frontend/App.tsx:99-102 | signs out to the login screen and keeps the data |
| AppShell.AppShellComponent.SwitchPage | frontend/App.tsx:114-131 | the links between signed-out screens set the page to their target |
| AppShell.ResetPasswordAlert | frontend/App.tsx:104-107 | the alert is a fixed opening, the address and a fixed closing, so it does not reveal whether the account exists |
| AppShell.AppShellComponent.Render | frontend/App.tsx:109-189 | signed out: the login view (with whether an admin exists), the signup view or the reset view, as the page says; signed in: loading, then error, then the employee, manager or admin dashboard iff the role is that one, and "Invalid Role" iff it is none of the three |
| FrontendTypes.MergeUser | frontend/hooks/useUsers.ts:66-69 | for each of the five keys, a patched value wins and an unpatched one is kept; the empty patch changes nothing |
| FrontendTypes.MergeExpense | frontend/hooks/useExpenses.ts:85-88 | for each of the fourteen keys, a patched value wins and an unpatched one is kept; the empty patch changes nothing |
| FrontendTypes.IndexOfId | frontend/hooks/useExpenses.ts:86 | the first entry with that id, or none |
| FrontendTypes.ReplaceById | frontend/hooks/useExpenses.ts:93-97 | the length is kept; entries with that id are replaced and the others kept |
| FrontendTypes.ReplaceAbsentId | frontend/hooks/useUsers.ts:71-73 | with no entry of that id the list is unchanged |
| FrontendTypes.ReplaceKeepsIds | frontend/hooks/useExpenses.ts:93-97 | a replacement with the same id keeps every id, and repeating it changes nothing |
| ExpenseCurrency.ConvertExpenseAmount | frontend/hooks/useExpenseCurrency.ts:13-35 | only the converted amount changes: the amount itself in the base currency, the converter's amount otherwise, and untouched on failure |
| ExpenseCurrency.ConvertIdempotent | frontend/hooks/useExpenseCurrency.ts:13-35 | converting twice is the same as once |
| ExpenseCurrency.ConvertExpenses | frontend/hooks/useExpenseCurrency.ts:37-44 | element-wise conversion that keeps order, length and ids |
| ExpenseCurrency.BaseCurrencyExpensesConverted | frontend/hooks/useExpenseCurrency.ts:15-17 | every base-currency expense carries its own amount as the converted amount |
| ExpensesStore.LocalExpense | frontend/hooks/useExpenses.ts:51-56 | the fallback record carries every submitted field (its draft part is the draft), the generated id, status "Draft", no approvers and no rule |
| ExpensesStore.LocalUpdate | frontend/hooks/useExpenses.ts:85-88 | the patch over the first record with that id, or the patch alone iff no record has it |
| ExpensesStore.LocalUpdateKeepsId | frontend/hooks/useExpenses.ts:85-88 | a patch without an id keeps the record's id |
| ExpensesStore.AfterUpdate | frontend/hooks/useExpenses.ts:92-97 | the length is kept; a whole record replaces its id's entries after conversion; a patch alone changes nothing |
| ExpensesStore.LocalUpdatePlacesMerge | frontend/hooks/useExpenses.ts:85-97 | the fallback update keeps every id and puts the converted merge at the updated position |
| ExpensesStore.ExpensesHook.BeginFetch | frontend/hooks/useExpenses.ts:13-14 | loading starts and the error is cleared; the list is kept |
| ExpensesStore.ExpensesHook.FinishFetch | frontend/hooks/useExpenses.ts:15-36 | the fetched list converted, or an empty list on failure; loading ends |
| ExpensesStore.ExpensesHook.CreateExpense | frontend/hooks/useExpenses.ts:39-70 | the server's or the local record is appended after conversion and returned unconverted |
| ExpensesStore.ExpensesHook.UpdateExpense | frontend/hooks/useExpenses.ts:72-106 | the server's record or the local merge replaces its id's entries; the length is kept and other entries are untouched |
| UsersStore.LocalUser | frontend/hooks/useUsers.ts:42-45 | the fallback record is the submitted fields under the generated id |
| UsersStore.LocalUpdate | frontend/hooks/useUsers.ts:66-69 | the patch over the first user with that id, or the patch alone iff no user has it |
| UsersStore.AfterUpdate | frontend/hooks/useUsers.ts:71-73 | the length is kept; a whole record replaces its id's entries; a patch alone changes nothing |
| UsersStore.EmptyPatchChangesNothing | frontend/hooks/useUsers.ts:66-73 | with distinct ids, an empty patch through the fallback leaves the list as it was |
| UsersStore.UsersHook.BeginFetch | frontend/hooks/useUsers.ts:11-12 | loading starts and the error is cleared; the list is kept |
| UsersStore.UsersHook.FinishFetch | frontend/hooks/useUsers.ts:13-30 | the fetched list, or an empty list on failure; loading ends |
| UsersStore.UsersHook.CreateUser | frontend/hooks/useUsers.ts:33-54 | the server's or the local record is appended and returned |
| UsersStore.UsersHook.UpdateUser | frontend/hooks/useUsers.ts:56-82 | the server's record or the local merge replaces its id's entries; other entries are untouched |
| RulesStore.BuiltInRuleWellFormed | frontend/hooks/useApprovalRules.ts:20-35 | the fallback rule has three distinct approvers, only the first required, and a percentage within 0..100 |
| RulesStore.RulesHook.BeginFetch | frontend/hooks/useApprovalRules.ts:11-12 | loading starts and the error is cleared; the rules are kept |
| RulesStore.RulesHook.FinishFetch | frontend/hooks/useApprovalRules.ts:10-44 | the fetched rules, or the built-in rule alone on failure; loading ends |
| RulesStore.RulesHook.UpdateRules | frontend/hooks/useApprovalRules.ts:46-64 | the server's answer, or the submitted list on failure, replaces the rules and is returned |

## Left out

- Network, database sessions, commits and refreshes, JSON decoding and React rendering are not modelled. What a call returned, or that it failed, arrives as a parameter.
- The "begin" halves of handlers are modelled (loading set, error cleared). Interleavings between concurrent handlers are not, and neither are stale closures (`expenses` and `users` read by the update fallbacks, versus `prev`). The model reads one current state.
- Amounts are unbounded reals. Float rounding is not modelled: `round(converted_amount, 2)` and the `amount * rate` product in `convert_currency` are left out, because both are float arithmetic. `CountryUtils.ConvertCurrency` states the rate and the codes, not the converted amount.
- CountryUtils.ConvertCurrency: does not return `original_amount` or `converted_amount`, which are float arithmetic.
- Upper-casing (`upper()`, `toUpperCase()`) is modelled for ASCII letters only; other letters are left as they are.
- InitialsAreFirstWordStarts: `Avatar.InitialsAreFirstWordStarts` takes the initials as whole characters, where `n[0]` and `.slice(0, 2)` take UTF-16 code units. For a name with a character outside the Basic Multilingual Plane, the front end shows half of a surrogate pair; the model shows the whole character. Strings here are sequences of Unicode scalar values, and a lone surrogate is not one.
- Avatar.Initials: the same whole-character reading as the line above.
- TabLayout.TabLabel: the same whole-character reading; the tab keys are ASCII, so the two agree on every tab shown.
- `localeCompare` is an abstract total preorder, not the ICU collation.
- Outer catch blocks in the three data hooks are not modelled. They set an error and rethrow, and they are reachable only if code after the inner fallback throws, which nothing does with a well-typed reply. For the same reason, `error` stays unset by the fetches.
- ExpenseCurrency.ConvertExpenseAmount: the converter is a general parameter that may fail. The front end's present converter falls back to fixed rates instead of failing, so with it the failure branch is never taken. That converter (frontend/hooks/useCountries.ts) is not part of this model.
- LoginPage.LoginPageComponent.FinishLogin: the page's only awaited step is a timer that never rejects. The failure flag is kept so that the `finally` can be stated.
- ExpenseCrud.Database.CreateExpense: new ids come from the database's uuid generator. They are a parameter the caller must pick fresh.
- Authentication and authorisation (`get_current_user`, passwords, tokens) are not modelled. The approval endpoint checks nothing about the current user, and neither does the model.
- The `useEffect` in the root component that fires the three fetches after sign-in is React scheduling; each fetch is modelled in its hook. `handleResetPassword` in the root component only shows an alert (`AppShell.ResetPasswordAlert`).
- Passwords given at signup are not stored by the root component's `handleSignup`, so the model drops them too.
- CSS class strings other than those selecting a variant or size, the "capitalize" styling of the role label, and the select menu's profile and settings entries are presentation only.
