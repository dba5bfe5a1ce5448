# Session state machine, thunks, route guard and forms of the midterm admin front end

This project models in Dafny the logic of a small React/Redux front end for
an e-commerce administration site. It covers:

- the session reducer (`userReducer`). It is a pure function from a session
  snapshot `{loading, user, userId, error, roles?}` and an action to the next
  snapshot. `Run` replays a log of actions through it.
- the four action thunks (`addUser`, `login`, `fetchUserDetails`,
  `fetchRoles`). Each is a method over a `Store` object, which records every
  dispatched action in `log` and keeps `state == Run(InitialState, log)`. The
  result of each HTTP request is an input: success with `response.data`, or
  failure with `error.message` and, when the server answered, `response.data`.
- `ProtectedRoute`, a guard that checks only that a token is present, and the
  route table of `App`.
- the Yup schemas of the registration, product, category and login forms.
  They are predicates over strings.
- the product search/status filter and status label of `HomePage`, and the
  role lookup, render precedence, mount effect and logout of `MembersPage`.
- the submit handlers of the four form pages. Each is a method over the page's
  own `useState` fields.

`localStorage` is a `map<string, string>`; a missing key reads as null. The
current location is a field of a `Window` object. A delayed `setTimeout`
callback is a `*Pending` flag that the handler sets, and a `FireTimer` method
runs the callback's steps. The delay itself is not modelled.

`loading` is one flag shared by the login and fetch-user families. A
completion of either family clears a REQUEST of the other
(`Session.LoadingTracksLastLifecycleAction`, `Session.SharedLoadingFlag`).
The reducer applies a completion whatever the current value of `loading` is.

## Model

| member | source | states |
|---|---|---|
| Js.OrElse | midtermapp/src/components/LoginPage.js:39 | the logical-or fallback gives the string when it is non-empty and the fallback when it is null, undefined or empty |
| Js.Lower | midtermapp/src/components/HomePage.js:116 | ASCII `toLowerCase` keeps the length, maps each position through `LowerChar`, and leaves no upper-case letter |
| Js.LowerChar | midtermapp/src/components/HomePage.js:116 | an upper-case ASCII letter becomes the letter at the same place of the lower-case alphabet; every other character is kept |
| Js.Includes | midtermapp/src/components/HomePage.js:116 | `includes` is true exactly when the needle occurs at some index of the haystack |
| Browser.GetItem | midtermapp/src/components/ProtectedRoute.js:5 | `getItem` yields the stored string, or null exactly when the key is absent |
| Browser.Window.SetItem | midtermapp/src/components/LoginPage.js:33 | `setItem` binds the key to the value and keeps every other key and the location |
| Browser.Window.RemoveItem | midtermapp/src/components/HomePage.js:122 | `removeItem` drops the key, keeps every other key and the location, and is a no-op for a missing key |
| Browser.Window.Navigate | midtermapp/src/components/HomePage.js:123 | assigning `window.location.href` or calling `navigate` changes the location and keeps the storage |
| Session.Reduce | midtermapp/src/reducers/userReducer.js:21-40 | unhandled actions return the same state; only REQUEST/SUCCESS/FAILURE change `loading`; only FETCH_ROLES_SUCCESS changes `roles`; only LOGIN_SUCCESS/FAILURE change `userId`; only completions change `user`; a non-null `error` is new only after a FAILURE |
| Session.Run | midtermapp/src/reducers/userReducer.js:21-40 | replaying the empty log changes nothing; a new non-null `error` after a log comes from a LOGIN_FAILURE or FETCH_USER_FAILURE in it |
| Session.InitialStateIsIdle | midtermapp/src/reducers/userReducer.js:14-19 | the initial state is not loading, has null user, userId and error, and no `roles` field |
| Session.RequestStartsLoading | midtermapp/src/reducers/userReducer.js:23-30 | LOGIN_REQUEST and FETCH_USER_REQUEST set loading and clear error, and keep user, userId and roles |
| Session.LoginSuccessInstallsUser | midtermapp/src/reducers/userReducer.js:25-26 | LOGIN_SUCCESS clears loading and error, installs `payload.user` and `payload.userId`, and keeps roles |
| Session.LoginFailureClearsIdentity | midtermapp/src/reducers/userReducer.js:27-28 | LOGIN_FAILURE nulls user and userId, clears loading and stores the error, whatever the prior state |
| Session.FetchUserOutcome | midtermapp/src/reducers/userReducer.js:31-34 | FETCH_USER_SUCCESS replaces user with the whole payload and FETCH_USER_FAILURE nulls it; both keep userId |
| Session.RolesMergeIsSideChannel | midtermapp/src/reducers/userReducer.js:35-36 | FETCH_ROLES_SUCCESS changes only `roles` |
| Session.AddUserActionsIgnored | midtermapp/src/reducers/userReducer.js:37-38 | ADD_USER_* actions, imported but unhandled, and unknown actions return the identical state |
| Session.SharedLoadingFlag | midtermapp/src/reducers/userReducer.js:23-34 | a completion of one family clears the loading set by the other family's REQUEST |
| Session.RunConcat | midtermapp/src/reducers/userReducer.js:21-40 | replaying two logs in turn equals replaying their concatenation |
| Session.RunSnoc | midtermapp/src/reducers/userReducer.js:21-40 | replaying one more action is one more reducer step |
| Session.AddUserLogIsInert | midtermapp/src/reducers/userReducer.js:2-4 | any log of ADD_USER_* actions leaves the session unchanged |
| Session.RolesChangeOnlyOnRolesSuccess | midtermapp/src/reducers/userReducer.js:35-36 | a log without FETCH_ROLES_SUCCESS keeps `roles` |
| Session.UserIdChangesOnlyOnLoginCompletion | midtermapp/src/reducers/userReducer.js:25-28 | a log without LOGIN_SUCCESS or LOGIN_FAILURE keeps `userId` |
| Session.LoadingTracksLastLifecycleAction | midtermapp/src/reducers/userReducer.js:23-34 | after any log, loading is true exactly when the last REQUEST/SUCCESS/FAILURE of either family is a REQUEST, or there is none and it was already true |
| Session.LoginScenario | midtermapp/src/reducers/userReducer.js:23-26 | LOGIN_REQUEST then LOGIN_SUCCESS from the initial state gives `{loading:false, user, userId, error:null}` |
| Session.LoginFailureScenario | midtermapp/src/reducers/userReducer.js:27-28 | LOGIN_REQUEST then LOGIN_FAILURE from the initial state gives `{loading:false, user:null, userId:null, error}` |
| Actions.Store.constructor | midtermapp/src/reducers/userReducer.js:21 | the store starts in the initial state, reached through the reducer's default case, with an empty log |
| Actions.Store.Dispatch | midtermapp/src/reducers/userReducer.js:21-22 | dispatch appends the action to the log and applies one reducer step; the state remains the replay of the log |
| Actions.AddUser | midtermapp/src/actions/userActions.js:15-24 | ADD_USER_REQUEST, then ADD_USER_SUCCESS with the data or ADD_USER_FAILURE with the message; never rejects; the session is unchanged |
| Actions.Login | midtermapp/src/actions/userActions.js:27-37 | LOGIN_REQUEST, then on success LOGIN_SUCCESS and the data is returned; with a response, LOGIN_FAILURE with `response.data.message` and the error is rethrown; without a response, nothing more is dispatched, it rejects with the read error and the session stays loading |
| Actions.FetchUserDetails | midtermapp/src/actions/userActions.js:39-47 | FETCH_USER_REQUEST, then exactly one of SUCCESS with the record or FAILURE with the message; never rejects; loading ends false, userId and roles kept |
| Actions.FetchRoles | midtermapp/src/actions/userActions.js:49-56 | no REQUEST; FETCH_ROLES_SUCCESS with `response.data.roles` on success (only roles changes), nothing on failure |
| Actions.RequestComesFirst | midtermapp/src/actions/userActions.js:15-41 | whatever the request's result, the first action addUser, login and fetchUserDetails dispatch is their REQUEST |
| ProtectedRoute.Guard | midtermapp/src/components/ProtectedRoute.js:4-12 | children are returned unchanged exactly when a non-empty token is stored; otherwise a redirect to `/login` |
| ProtectedRoute.EmptyTokenRedirects | midtermapp/src/components/ProtectedRoute.js:5-8 | a stored empty token redirects like a missing one |
| ProtectedRoute.GuardReadsOnlyToken | midtermapp/src/components/ProtectedRoute.js:5 | two storages with the same token value get the same answer |
| ProtectedRoute.IsLoggedIn | midtermapp/src/components/ProtectedRoute.js:5 | `Boolean(getItem("token"))` holds exactly when a token is stored and is non-empty |
| App.Lookup | midtermapp/src/App.js:22-44 | a path is found exactly when some route has it, and the element found is that route's element |
| App.Render | midtermapp/src/App.js:22-44 | no page exactly when no route has the path; a redirect only goes to `/login` and only when no token is stored; `/admin` without a token redirects |
| App.RoutePathsDistinct | midtermapp/src/App.js:23-43 | the six route paths are pairwise distinct |
| App.AdminIsGuarded | midtermapp/src/App.js:28-35 | `/admin` shows AdminPage exactly when a token is stored, else redirects to `/login` |
| App.AddProductIsGuarded | midtermapp/src/App.js:36-43 | `/admin/add-product` shows AddProductPage exactly when a token is stored, else redirects |
| App.OpenRoutesAreUnguarded | midtermapp/src/App.js:23-26 | `/`, `/registration`, `/login` and `/members` show their page whatever is stored |
| App.ProtectedPagesNeedToken | midtermapp/src/App.js:22-44 | for every path, AdminPage or AddProductPage is shown only when a token is stored |
| HomePage.StatusLabel | midtermapp/src/components/HomePage.js:99 | the label is "Active" exactly for an active product and "Inactive" exactly for an inactive one |
| HomePage.MatchesSearch | midtermapp/src/components/HomePage.js:116-117 | the lower-cased search text occurs at some index of the lower-cased name or of the lower-cased description; an empty search matches every product |
| HomePage.MatchesStatus | midtermapp/src/components/HomePage.js:118 | an empty filter passes every product; `active` passes exactly the active ones; any other value passes exactly the inactive ones |
| HomePage.Kept | midtermapp/src/components/HomePage.js:115-118 | a product is kept exactly when the lower-cased search text occurs in its lower-cased name or description and the status filter is empty or agrees with its status; with empty search and filter every product is kept |
| HomePage.FilteredData | midtermapp/src/components/HomePage.js:114-119 | the result is an order-preserving subsequence of the data; every kept product passes the search and status tests; each passing product appears as often as in the data and each failing one not at all |
| HomePage.FilterKeepsPassingList | midtermapp/src/components/HomePage.js:114-119 | a list whose every product passes comes back unchanged |
| HomePage.FilterIdempotent | midtermapp/src/components/HomePage.js:114-119 | filtering twice equals filtering once |
| HomePage.EmptyFiltersKeepAll | midtermapp/src/components/HomePage.js:114-118 | with empty search and empty status filter every product is kept |
| HomePage.StatusFilterSelects | midtermapp/src/components/HomePage.js:118 | `active` keeps only active products; any other non-empty value keeps only inactive ones |
| HomePage.ShouldFetchProducts | midtermapp/src/components/HomePage.js:52 | the page's login check is the guard's: a non-empty token is stored |
| HomePage.Page.constructor | midtermapp/src/components/HomePage.js:45-48 | data, search, status filter and selection start empty |
| HomePage.Page.DisplayProducts | midtermapp/src/components/HomePage.js:66-75 | success replaces the data with the fetched products; failure keeps it and raises an alert |
| HomePage.Page.OnMount | midtermapp/src/components/HomePage.js:54-58 | with a token stored, success replaces the data and raises no alert, and failure keeps the data and raises the alert; without a token nothing is fetched and data and alert are kept |
| HomePage.Page.HandleSearch | midtermapp/src/components/HomePage.js:106-108 | sets the search text and nothing else |
| HomePage.Page.HandleStatusFilterChange | midtermapp/src/components/HomePage.js:110-112 | sets the status filter and nothing else |
| HomePage.Page.HandleRowSelected | midtermapp/src/components/HomePage.js:102-104 | sets the selected rows and nothing else |
| HomePage.ViewProductDetails | midtermapp/src/components/HomePage.js:77-85 | on success the browser goes to `/ShowProducts/{id}`; on failure nothing changes |
| HomePage.HandleLogout | midtermapp/src/components/HomePage.js:121-124 | removes only the token and goes to `/login`; the guard then refuses |
| MembersPage.RolesOrDefault | midtermapp/src/components/MembersPage.js:46 | `roles` defaults to `[]` only when the field is undefined |
| MembersPage.FindRole | midtermapp/src/components/MembersPage.js:60 | finds the first role whose `_id` equals the id, or none when no role matches |
| MembersPage.GetRoleName | midtermapp/src/components/MembersPage.js:56-62 | the name of the first matching role; "Unknown" when roles is not an array or nothing matches |
| MembersPage.NoRolesLoadedMeansUnknown | midtermapp/src/components/MembersPage.js:46 | in the store's initial state every role id reads "Unknown" |
| MembersPage.Render | midtermapp/src/components/MembersPage.js:70-99 | spinner exactly when loading; else the error when it is truthy; else the user card with its role name when a user is set; else "No user details available" |
| MembersPage.MountDispatches | midtermapp/src/components/MembersPage.js:48-54 | fetchRoles is always dispatched first; fetchUserDetails follows exactly when a non-empty userId is stored, with that id |
| MembersPage.HandleLogout | midtermapp/src/components/MembersPage.js:64-68 | removes both token and userId and goes to `/login`; afterwards the guard refuses and the mount effect fetches only roles |
| Validation.ContainsClass | midtermapp/src/components/RegistrationPage.js:24-27 | the one-class regex matches exactly when some character is in the class |
| Validation.AllInClass | midtermapp/src/components/RegistrationPage.js:18 | the repeated class matches the whole string exactly when every character is in the class |
| RegistrationPage.GmailFromLocalPart | midtermapp/src/components/RegistrationPage.js:18 | every non-empty local part from `[a-zA-Z0-9._%+-]` followed by `@gmail.com` matches, and the local part is its prefix |
| RegistrationPage.GmailHasOneAt | midtermapp/src/components/RegistrationPage.js:18 | an address matching the pattern holds exactly one `@` |
| RegistrationPage.MatchesGmail | midtermapp/src/components/RegistrationPage.js:16-19 | the pattern matches exactly the strings that are a non-empty local part from `[a-zA-Z0-9._%+-]` followed by `@gmail.com` |
| RegistrationPage.ValidPassword | midtermapp/src/components/RegistrationPage.js:21-27 | a password passes exactly when it has 8 or more characters, a lower-case letter, an upper-case letter, a digit and a character outside `[A-Za-z0-9]` |
| RegistrationPage.Valid | midtermapp/src/components/RegistrationPage.js:14-29 | a form is valid exactly when display name, username and role are non-empty, the address passes `email()` and the gmail pattern, and the password is valid |
| RegistrationPage.ValidFormFacts | midtermapp/src/components/RegistrationPage.js:14-29 | a valid form has an address that passes `email()`, ends in `@gmail.com` and has one `@`, and a password of 8 or more characters with distinct lower- and upper-case letters |
| RegistrationPage.SpaceCountsAsSpecial | midtermapp/src/components/RegistrationPage.js:21-27 | `/[^A-Za-z0-9]/` accepts a space, so "Abcdef1 " is a valid password |
| RegistrationPage.LowerCaseOnlyPasswordRejected | midtermapp/src/components/RegistrationPage.js:21-27 | eight lower-case letters are not a valid password |
| RegistrationPage.InitialValuesInvalid | midtermapp/src/components/RegistrationPage.js:70-76 | the empty starting form does not pass the schema |
| RegistrationPage.Page.constructor | midtermapp/src/components/RegistrationPage.js:32-34 | no roles, not loading, no message |
| RegistrationPage.Page.LoadRoles | midtermapp/src/components/RegistrationPage.js:38-49 | success fills the role menu; failure keeps it |
| RegistrationPage.Page.HandleSubmit | midtermapp/src/components/RegistrationPage.js:51-63 | dispatches ADD_USER_REQUEST then SUCCESS or FAILURE without changing the session; "Registration successful!" is set after every submit, also a failed one; form reset; local loading false; role menu kept; the button is then enabled exactly when the store is not loading |
| RegistrationPage.Page.FireTimer | midtermapp/src/components/RegistrationPage.js:57 | the delayed step clears the success message and keeps loading, the form values and the role menu |
| AddProductPage.InitialValuesInvalid | midtermapp/src/components/AddProductPage.js:113 | status starts checked, and the empty starting form does not pass |
| AddProductPage.PriceBounds | midtermapp/src/components/AddProductPage.js:50-53 | a price must be positive and at most 100000: 0.5 and 100000 pass, 0 and 100000.01 do not |
| AddProductPage.Valid | midtermapp/src/components/AddProductPage.js:33-55 | a form is valid exactly when the code has 1 to 6 characters, the name 3 to 30, the excerpt 1 to 200, the description 30 to 500, a category is chosen, the price is in (0, 100000] and a status is set |
| AddProductPage.Page.constructor | midtermapp/src/components/AddProductPage.js:26-30 | no categories, snackbar closed with severity "success", not loading |
| AddProductPage.Page.LoadCategories | midtermapp/src/components/AddProductPage.js:57-65 | success fills the category menu; failure keeps it |
| AddProductPage.Page.HandleSubmit | midtermapp/src/components/AddProductPage.js:67-86 | failure shows "error" and clears loading at once; success shows "success" and loading stays set until the delayed step; the category menu is kept |
| AddProductPage.Page.FireTimer | midtermapp/src/components/AddProductPage.js:74-78 | the delayed step clears loading, resets the form and goes to `/`; the snackbar and the category menu are kept |
| AddProductPage.Page.HandleCloseSnackbar | midtermapp/src/components/AddProductPage.js:93-95 | closes the snackbar and keeps every other field, the category menu included |
| AdminPage.AuthorizationHeader | midtermapp/src/components/AdminPage.js:28 | the header is "Bearer " followed by the stored token, or by "null" when none is stored |
| AdminPage.Valid | midtermapp/src/components/AdminPage.js:13-22 | a category passes exactly when its name has 3 to 30 characters and its description 50 to 500 |
| AdminPage.InitialValuesInvalid | midtermapp/src/components/AdminPage.js:13-22 | the empty starting form fails, and a two-letter name fails whatever the description |
| AdminPage.SeverityOf | midtermapp/src/components/AdminPage.js:129 | severity is "error" exactly when the message contains "Error", else "success" |
| AdminPage.MessagesGetTheirSeverity | midtermapp/src/components/AdminPage.js:129 | the success message gets "success" and the failure message gets "error" |
| AdminPage.Page.constructor | midtermapp/src/components/AdminPage.js:9-10 | no message, not loading |
| AdminPage.Page.HandleSubmit | midtermapp/src/components/AdminPage.js:24-41 | the request carries the values and the stored token's header; success sets "Category added successfully!", resets the form and schedules navigation; failure sets "Error adding category."; loading is false either way |
| AdminPage.Page.FireTimer | midtermapp/src/components/AdminPage.js:32-34 | the delayed step goes to `/admin/add-product` |
| AdminPage.Page.CloseMessage | midtermapp/src/components/AdminPage.js:127-129 | closing the alert clears the message |
| LoginPage.AnyNonEmptyPasswordPasses | midtermapp/src/components/LoginPage.js:15-19 | any non-empty username and password pass; the password has no other rule |
| LoginPage.Valid | midtermapp/src/components/LoginPage.js:15-19 | the login form passes exactly when username and password are both non-empty |
| LoginPage.FailureText | midtermapp/src/components/LoginPage.js:38-41 | the server's message when a response carries a non-empty one; the fallback "Login failed. Please try again." when the response has no message or an empty one, and when there is no response |
| LoginPage.Page.constructor | midtermapp/src/components/LoginPage.js:22-24 | empty message, not loading |
| LoginPage.Page.HandleSubmit | midtermapp/src/components/LoginPage.js:28-47 | the store receives LOGIN_REQUEST then LOGIN_SUCCESS, LOGIN_FAILURE, or nothing more without a response; success stores the token, installs user and userId with no error, shows the success message and goes to `/members`; failure with a response stores the server message as the error and shows it or the fallback; without a response the store stays loading; loading and submitting end false |
| LoginPage.Page.FireTimer | midtermapp/src/components/LoginPage.js:45 | the delayed step clears the message |

## Left out

- JSX rendering, Material-UI widgets, DataTable pagination, Snackbar auto-hide and the `setTimeout` delays. Each delayed callback is a pending flag plus a `FireTimer` method; when it fires is not modelled.
- `midtermapp/src/components/theme.js` and the styling constants. They hold no logic.
- `midtermapp/src/components/Navbar.js`. Its Admin link reads the token through `useLocalStorage`, whose serialisation is a library internal.
- `formatCreatedAt`. It depends on moment-timezone date conversion.
- axios itself, URLs and response shapes. Each request's result is an input. A failed request's `error.response.data` is taken to be an object whose `message` may be missing.
- Yup's built-in `email()` test. It is a parameter `isEmail` of the registration schema.
- Yup's number parsing. `price` arrives already parsed, with `None` for a value that is not a number. Yup's error message texts and Formik's field binding are not modelled either.
- Formik does not call `onSubmit` while the schema fails. The handlers do not depend on validity, so the model does not take that gate as a precondition.
- Unicode case folding in `toLowerCase`. Only ASCII letters are lower-cased. String lengths count characters, not UTF-16 code units.
- LoginPage.Page.HandleSubmit: the token goes into storage as the raw string. `useLocalStorage` stores its JSON serialisation, which is a library internal.
- Concurrency: overlapping thunks are not interleaved. The store receives one serial stream of actions. MembersPage's two mount dispatches are a list of thunk calls; the order in which their actions arrive is not modelled.
- `undefined` and `null` are the same `None` in the session's `user`, `userId` and `error`. `roles` keeps the distinction, since only `undefined` triggers the `[]` default.
- The `handleLogout` of AdminPage and AddProductPage is identical to HomePage's and is modelled once, by `HomePage.HandleLogout`.
- AdminPage.Page.HandleSubmit: the severity of the message it sets is proved separately by `AdminPage.MessagesGetTheirSeverity`, not in the method's own contract.
- Route matching: `App.Render` matches a path by exact string equality. React Router also matches case-insensitively and accepts a trailing slash, so `/Admin` or `/admin/` shows the guarded AdminPage there but `NoMatch` in the model.
- The arguments of the thunks (`user`, `credentials`, `userId`) and the form values sent by the pages only go into a request's URL or body, so the thunks do not take them. AdminPage's request is the exception: its header is part of what is proved.
