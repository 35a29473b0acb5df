# Musician session coordinator — verified model of its decision and state logic

This project models the parts of the musician session coordinator (a React
client with a Redux store and an Express server) that make decisions or move
state, and proves what they promise:

- the client's authentication store (`authSlice.ts`): login, register and
  current-user requests as pending/fulfilled/rejected transitions, logout,
  clearError, and the forced logout on an invalid or expired token;
- the client's UI store (`uiSlice.ts`): sidebar and dark-mode flags, one
  notification, one modal;
- the sessions list (`SessionsList.tsx`): status and text filter, sort by
  column and direction, page slicing, the sort-header rule, the page reset
  and the URL query written back from the filters;
- the forms: the three-step registration wizard (`Register.tsx`), the login
  form (`Login.tsx`) and the new-session form with its participant list
  (`CreateSession.tsx`);
- the dashboard's month grid, highlighted day and sample-data fallback
  (`Dashboard.tsx`), the side menu's active entry (`Sidebar.tsx`) and the
  route guard (`ProtectedRoute.tsx`);
- the server's authentication middleware and role check
  (`middleware/auth.js`), its error handler (`middleware/errorHandler.js`)
  and its account handlers (`controllers/auth.js`) over a users table with a
  unique e-mail index.

Each source file is one module. Reducers and React state that the source
assigns in place are classes whose methods are proved against a reducer
function (`State() == Reduce(old(State()), action)`). Validators that build
their result step by step are methods proved against a predicate on the
form. The filter, sort and slice chains and the other pure expressions are
functions. `Contracts` ties the
client and the server together: the server's 401 messages are exactly the
ones that make the client's store log out, and the header the client builds
is the one the server parses.

Stand-ins for what the source gets from its platform:

- JavaScript truthiness and `a || b`: `Common.JsValue`, `Truthy`, `Or`.
- `length` (UTF-16 code units), `trim`, `toLowerCase`, `includes`,
  `startsWith` and the two regular expressions: `Text`.
- `Number(s)`: `JsNumber.Number`.
- Instants: integer milliseconds.
- bcrypt hashing and comparison, and JWT signing and verification:
  function-typed parameters or plain values.

## Model

| member | source | states |
|---|---|---|
| Text.Utf16Length | client/src/pages/auth/Register.tsx:121 | a string's JavaScript length lies between its number of characters and twice that, and equals the number of characters when none lies beyond U+FFFF |
| Text.SurrogatePairsCountTwice | client/src/pages/auth/Register.tsx:121 | four characters beyond U+FFFF have a JavaScript length of eight |
| Text.TrimStart | client/src/pages/auth/Login.tsx:74 | the result is a suffix of the input, everything dropped is white space, and the result does not start with white space |
| Text.TrimEnd | client/src/pages/auth/Login.tsx:74 | the result is a prefix of the input, everything dropped is white space, and the result does not end with white space |
| Text.Trim | client/src/pages/auth/Login.tsx:74 | the trimmed text is empty exactly when every character is white space; text without white space is unchanged |
| Text.EmailHasNoSpace | client/src/pages/auth/Register.tsx:110-116 | an address matching the e-mail pattern has no white space, survives trimming unchanged and has at least five characters |
| JsNumber.NatToStringDigits | client/src/pages/auth/Register.tsx:256-257 | the decimal spelling of a natural number is a non-empty run of digits whose value is that number |
| JsNumber.DigitRun | client/src/pages/auth/Register.tsx:256-257 | the leading run of digits is all digits, stops at a non-digit, and covers a string made only of digits |
| JsNumber.NumberOfNatToString | client/src/pages/auth/Register.tsx:256-257 | reading back the spelling of a natural number gives that number, so a typed whole number is never NaN |
| JsNumber.NegativeNeedsMinus | client/src/pages/auth/Register.tsx:177-183 | a string whose number is negative starts with a minus sign once trimmed |
| Login.ValidateForm | client/src/pages/auth/Login.tsx:66-90 | valid exactly when the trimmed address is non-empty, matches the pattern and the password is non-empty; the errors are rebuilt from empty, a blank address gets 'Email is required' and never the format message, and only failing fields get a message |
| Login.LoginValidIff | client/src/pages/auth/Login.tsx:74-86 | the form passes exactly when the address matches the pattern and the password is non-empty; the blank check adds nothing |
| Login.OneCharacterPasswordAccepted | client/src/pages/auth/Login.tsx:83-86 | sign-in accepts a one-character password; there is no minimum length |
| Login.HandleChange | client/src/pages/auth/Login.tsx:92-106 | only the named field takes the typed value, that field's error becomes empty and the other field's error is kept |
| Register.CheckedOn | client/src/pages/auth/Register.tsx:137-155 | a step checks only fields it renders, and location and bio are never checked |
| Register.StepErrorsKeepOtherFields | client/src/pages/auth/Register.tsx:102 | validation leaves the errors of the fields the step does not check as they were |
| Register.AccountValidIffNoMessages | client/src/pages/auth/Register.tsx:105-135 | step 0 passes exactly when the e-mail, password and confirmation all come out without a message |
| Register.PersonalValidIffNoMessages | client/src/pages/auth/Register.tsx:137-155 | step 1 passes exactly when first and last name come out without a message |
| Register.ProfessionalValidIffNoMessages | client/src/pages/auth/Register.tsx:157-195 | step 2 passes exactly when user type, rate, experience and portfolio URL come out without a message |
| Register.ValidateStep | client/src/pages/auth/Register.tsx:100-200 | valid exactly when the step's predicate holds (steps other than 0–2 always pass); the new errors rewrite only that step's fields |
| Register.FourEmojiPasswordLongEnough | client/src/pages/auth/Register.tsx:119-125 | a password of four emoji passes the length check, since `length` counts UTF-16 code units |
| Register.ValidateAccount | client/src/pages/auth/Register.tsx:105-135 | step 0: valid exactly when the address is non-blank and matches the pattern, the password has a JavaScript length of at least 8 (UTF-16 code units) and the confirmation equals it |
| Register.ValidatePersonal | client/src/pages/auth/Register.tsx:137-155 | step 1: valid exactly when first and last name are non-blank |
| Register.CheckHourlyRate | client/src/pages/auth/Register.tsx:166-171 | the rate gets a message exactly when it is non-empty and not a number |
| Register.CheckYearsExperience | client/src/pages/auth/Register.tsx:173-182 | the experience gets a message when it is non-empty and not a number, or negative |
| Register.CheckPortfolioUrl | client/src/pages/auth/Register.tsx:184-193 | the URL gets a message exactly when it is non-empty and does not match the http(s) pattern |
| Register.ValidateProfessional | client/src/pages/auth/Register.tsx:157-195 | step 2: valid exactly when the user type is set, the rate is empty or a number, the experience is empty or a non-negative number, and the URL is empty or http(s) |
| Register.EditKeepsOtherSteps | client/src/pages/auth/Register.tsx:212-226 | editing an input of one step cannot change whether another step passes |
| Register.CheckboxKeepsSteps | client/src/pages/auth/Register.tsx:212-226 | the checkboxes never affect whether a step passes |
| Register.ToNumberField | client/src/pages/auth/Register.tsx:253-258 | an empty rate or experience becomes undefined; anything else becomes its number, or NaN exactly when it does not parse |
| Register.ValidatedPayloadHasNumbers | client/src/pages/auth/Register.tsx:246-258 | once the last step passes, neither converted number is NaN and the experience is not negative |
| Register.RegisterPage.constructor | client/src/pages/auth/Register.tsx:55-90 | the wizard starts on step 0 with the initial form and no errors |
| Register.RegisterPage.HandleNext | client/src/pages/auth/Register.tsx:202-206 | the step advances by exactly one when the current step passes and stays otherwise; the wizard keeps every earlier step passing |
| Register.RegisterPage.HandleBack | client/src/pages/auth/Register.tsx:208-210 | the step goes back by exactly one; Back is disabled on the first step |
| Register.RegisterPage.HandleChange | client/src/pages/auth/Register.tsx:212-234 | the edited field takes the value, its error becomes empty and no other error changes; earlier steps still pass |
| Register.RegisterPage.HandleSubmit | client/src/pages/auth/Register.tsx:244-260 | a payload goes out exactly when the last step passes, it leaves out the confirmation, and then all three steps pass |
| AuthSlice.Reduce | client/src/store/authSlice.ts:127-192 | logout clears the session and keeps loading; clearError touches only the error; pending sets loading and clears the error only; fulfilled login/register sign in with the payload's user and token; login and register rejections keep the session; every rejection sets the error to the server's message, or to 'Login failed', 'Registration failed' or 'Failed to fetch user data' when there is none; getCurrentUser rejection logs out exactly on 'Invalid token' or 'Token has expired'; every action keeps "authenticated implies a token" |
| AuthSlice.SessionConsistentAlongRun | client/src/store/authSlice.ts:127-192 | any run of actions from a consistent state keeps "authenticated implies a token" |
| AuthSlice.InitialRunsAreConsistent | client/src/store/authSlice.ts:63-69 | from the initial state no run of actions reaches an authenticated state without a token |
| AuthSlice.PostThunk | client/src/store/authSlice.ts:75-99 | the login/register thunk is fulfilled exactly on success, with the response body; a rejection carries the server's non-empty message or the default |
| AuthSlice.GetCurrentUserThunk | client/src/store/authSlice.ts:101-122 | without a token it rejects with 'No token found' before any request; otherwise it is fulfilled exactly when the Bearer request succeeds |
| AuthSlice.ForcedLogoutThenNoToken | client/src/store/authSlice.ts:106-108 | after a forced logout the next current-user request rejects with 'No token found', which does not log out again |
| AuthSlice.LoginSettles | client/src/store/authSlice.ts:141-154 | a login that starts and settles leaves the store idle, signed in with the response's token or holding a non-empty error with the session unchanged |
| AuthSlice.AuthStore.constructor | client/src/store/authSlice.ts:63-69 | the store starts in the initial state, which is consistent |
| AuthSlice.AuthStore.Logout | client/src/store/authSlice.ts:129-134 | the fields become the reducer's logout state, keeping the invariant |
| AuthSlice.AuthStore.ClearError | client/src/store/authSlice.ts:135-137 | the fields become the reducer's clearError state |
| AuthSlice.AuthStore.Pending | client/src/store/authSlice.ts:141-144 | the fields become the reducer's pending state (shared by the three pending cases) |
| AuthSlice.AuthStore.SignedIn | client/src/store/authSlice.ts:145-150 | the fields become the reducer's fulfilled login/register state |
| AuthSlice.AuthStore.LoginRejected | client/src/store/authSlice.ts:151-154 | the fields become the reducer's rejected-login state |
| AuthSlice.AuthStore.RegisterRejected | client/src/store/authSlice.ts:167-170 | the fields become the reducer's rejected-register state |
| AuthSlice.AuthStore.CurrentUserFulfilled | client/src/store/authSlice.ts:177-180 | the fields become the reducer's fulfilled current-user state |
| AuthSlice.AuthStore.CurrentUserRejected | client/src/store/authSlice.ts:181-191 | the fields become the reducer's rejected current-user state, keeping the invariant |
| UiSlice.Reduce | client/src/store/uiSlice.ts:37-80 | each action changes only its own part of the state: toggles negate, sets assign, a shown notification is open with the given text and type, hiding keeps the text, opening stores the modal type and `data` or null, closing restores the initial modal |
| UiSlice.ToggleTwice | client/src/store/uiSlice.ts:38-46 | toggling the sidebar or dark mode twice gives back the starting state |
| UiSlice.SetIsIdempotent | client/src/store/uiSlice.ts:41-49 | setting a flag, hiding the notification or closing the modal a second time changes nothing |
| UiSlice.HideThenShowRestores | client/src/store/uiSlice.ts:50-63 | hiding a shown notification and showing it again gives back the shown state |
| UiSlice.OpenThenCloseResetsModal | client/src/store/uiSlice.ts:64-79 | opening then closing the modal leaves it as at start-up |
| UiSlice.UiStore.constructor | client/src/store/uiSlice.ts:19-32 | the store starts in the initial state |
| UiSlice.UiStore.ToggleSidebar | client/src/store/uiSlice.ts:38-40 | the fields become the reducer's result for toggleSidebar |
| UiSlice.UiStore.SetSidebarOpen | client/src/store/uiSlice.ts:41-43 | the fields become the reducer's result for setSidebarOpen |
| UiSlice.UiStore.ToggleDarkMode | client/src/store/uiSlice.ts:44-46 | the fields become the reducer's result for toggleDarkMode |
| UiSlice.UiStore.SetDarkMode | client/src/store/uiSlice.ts:47-49 | the fields become the reducer's result for setDarkMode |
| UiSlice.UiStore.ShowNotification | client/src/store/uiSlice.ts:50-60 | the fields become the reducer's result for showNotification |
| UiSlice.UiStore.HideNotification | client/src/store/uiSlice.ts:61-63 | the fields become the reducer's result for hideNotification |
| UiSlice.UiStore.OpenModal | client/src/store/uiSlice.ts:64-74 | the fields become the reducer's result for openModal |
| UiSlice.UiStore.CloseModal | client/src/store/uiSlice.ts:75-79 | the fields become the reducer's result for closeModal |
| SessionsList.Where | client/src/pages/sessions/SessionsList.tsx:143-160 | every element the filter returns is accepted and nothing is added |
| SessionsList.WhereKeepsAll | client/src/pages/sessions/SessionsList.tsx:143-160 | when every element is accepted the filter returns the list unchanged |
| SessionsList.WhereKeepsMatches | client/src/pages/sessions/SessionsList.tsx:143-160 | every accepted element is returned |
| SessionsList.FilterSessions | client/src/pages/sessions/SessionsList.tsx:143-160 | every kept session passes the status and search test, nothing is added, and 'all' with no search keeps the list as it is |
| SessionsList.FilterKeepsMatches | client/src/pages/sessions/SessionsList.tsx:143-160 | every session that passes the status and search test is kept |
| SessionsList.FilteredHaveStatus | client/src/pages/sessions/SessionsList.tsx:145-147 | with a status other than 'all', every kept session has that status |
| SessionsList.LexCompare | client/src/pages/sessions/SessionsList.tsx:172-176 | the text comparison returns -1, 0 or 1, and 0 exactly for equal strings |
| SessionsList.LexAntisymmetric | client/src/pages/sessions/SessionsList.tsx:172-176 | swapping the operands negates the text comparison |
| SessionsList.LexTransitive | client/src/pages/sessions/SessionsList.tsx:172-176 | the text comparison is transitive |
| SessionsList.CompareAntisymmetric | client/src/pages/sessions/SessionsList.tsx:161-179 | swapping two sessions negates the sort callback, for every column and direction |
| SessionsList.CompareTransitive | client/src/pages/sessions/SessionsList.tsx:161-179 | the sort callback is transitive, for every column and direction |
| SessionsList.Insert | client/src/pages/sessions/SessionsList.tsx:161-179 | inserting adds exactly the one session to the multiset |
| SessionsList.PrependSorted | client/src/pages/sessions/SessionsList.tsx:161-179 | a session that precedes every element of a sorted list can go in front of it |
| SessionsList.InsertSorted | client/src/pages/sessions/SessionsList.tsx:161-179 | inserting into a sorted list keeps it sorted |
| SessionsList.SortSessions | client/src/pages/sessions/SessionsList.tsx:161-179 | the sorted list is a permutation of its input and ordered by the callback |
| SessionsList.FilteredSessions | client/src/pages/sessions/SessionsList.tsx:141-180 | nothing before the sessions arrive; otherwise a sorted permutation of the filtered sessions |
| SessionsList.DateSortOrdersInstants | client/src/pages/sessions/SessionsList.tsx:166-170 | sorted by date, the list is non-decreasing in time for ascending and non-increasing for descending |
| SessionsList.NoFilterIsPermutation | client/src/pages/sessions/SessionsList.tsx:143-179 | with 'all' and no search, the list holds exactly the fetched sessions |
| SessionsList.SliceIndex | client/src/pages/sessions/SessionsList.tsx:183-186 | a slice index is clamped to the list's length and an in-range index is kept |
| SessionsList.Paginate | client/src/pages/sessions/SessionsList.tsx:183-186 | a page is the contiguous block from `page * rowsPerPage`: at most `rowsPerPage` rows, full while the list lasts, empty past the end |
| SessionsList.RowOnItsPage | client/src/pages/sessions/SessionsList.tsx:183-186 | row `i` is shown as entry `i % n` of page `i / n`, so every row is on a page |
| SessionsList.StatusColor | client/src/pages/sessions/SessionsList.tsx:189-202 | the colour is 'default' exactly for a status outside the four known ones |
| SessionsList.StatusColorsDistinct | client/src/pages/sessions/SessionsList.tsx:189-202 | distinct known statuses get distinct colours |
| SessionsList.GetParam | client/src/pages/sessions/SessionsList.tsx:80-81 | the value found is the first one stored under the key; nothing is found when no entry has the key |
| SessionsList.SessionsListPage.constructor | client/src/pages/sessions/SessionsList.tsx:80-89 | the filters come from the URL with 'all' and empty defaults; the list starts newest first on page 0 with 10 rows |
| SessionsList.SessionsListPage.HandleStatusFilterChange | client/src/pages/sessions/SessionsList.tsx:109-112 | the status filter takes the value and the page resets to 0; nothing else changes |
| SessionsList.SessionsListPage.HandleSearchChange | client/src/pages/sessions/SessionsList.tsx:114-117 | the search takes the value and the page resets to 0; nothing else changes |
| SessionsList.SessionsListPage.HandleRequestSort | client/src/pages/sessions/SessionsList.tsx:123-127 | the clicked column becomes the sort column; the order is descending exactly when the current column was clicked while ascending |
| SessionsList.SessionsListPage.HandleChangePage | client/src/pages/sessions/SessionsList.tsx:129-131 | the page becomes the chosen one |
| SessionsList.SessionsListPage.HandleChangeRowsPerPage | client/src/pages/sessions/SessionsList.tsx:133-136 | the rows per page take the chosen number and the page resets to 0 |
| SessionsList.SessionsListPage.SearchParams | client/src/pages/sessions/SessionsList.tsx:95-107 | the URL has `status` exactly when the filter is not 'all' and `search` exactly when the search is non-empty, and reading it back gives the same filters |
| CreateSession.ValidateForm | client/src/pages/sessions/CreateSession.tsx:91-125 | valid exactly when title and location are non-blank, the date is set and not before now, and the duration is set and above zero; errors start empty and only failing fields get their message |
| CreateSession.TypedDurationAccepted | client/src/pages/sessions/CreateSession.tsx:113-116 | a typed positive whole number passes the duration check |
| CreateSession.EmptyOrZeroDurationRejected | client/src/pages/sessions/CreateSession.tsx:113-116 | an emptied duration input and '0' fail the duration check |
| CreateSession.InitialFormNeedsTitleAndLocation | client/src/pages/sessions/CreateSession.tsx:64-71 | the initial form, one hour ahead and 120 minutes long, passes as soon as title and location are filled in |
| CreateSession.HandleChange | client/src/pages/sessions/CreateSession.tsx:128-143 | only the named field takes the typed text, its error becomes empty and every other error, the date's included, is kept |
| CreateSession.HandleDateChange | client/src/pages/sessions/CreateSession.tsx:146-159 | a cleared picker changes nothing; a picked date is stored and only the date error is cleared |
| CreateSession.AddParticipant | client/src/pages/sessions/CreateSession.tsx:162-173 | a picked musician not yet listed is appended with the typed role and the picker resets; otherwise nothing changes; ids stay distinct |
| CreateSession.RemoveParticipant | client/src/pages/sessions/CreateSession.tsx:176-178 | no kept participant has the id and nothing is added |
| CreateSession.RemoveKeepsOthers | client/src/pages/sessions/CreateSession.tsx:176-178 | every participant with another id is kept |
| CreateSession.RemoveKeepsIdsDistinct | client/src/pages/sessions/CreateSession.tsx:176-178 | removal keeps the ids distinct |
| CreateSession.RemoveListed | client/src/pages/sessions/CreateSession.tsx:176-178 | in a list with distinct ids, removing a listed id deletes exactly that entry and keeps the rest in order |
| CreateSession.RemoveAbsent | client/src/pages/sessions/CreateSession.tsx:176-178 | removing an id that is not listed changes nothing |
| CreateSession.StepKeepsIdsDistinct | client/src/pages/sessions/CreateSession.tsx:162-178 | one pick, role edit, add or removal keeps the ids distinct |
| CreateSession.RunKeepsIdsDistinct | client/src/pages/sessions/CreateSession.tsx:162-178 | no sequence of picks, adds and removals lists a musician twice |
| CreateSession.ParticipantData | client/src/pages/sessions/CreateSession.tsx:190-194 | one pending invitation per participant, in order, with the participant's id, and an empty role left out |
| CreateSession.PayloadInvitesEachUserOnce | client/src/pages/sessions/CreateSession.tsx:162-194 | a list built with the picker invites each user at most once |
| Dashboard.CalendarDays | client/src/pages/Dashboard.tsx:59-69 | the grid has `first + daysInMonth` cells: `first` blanks, then the days 1, 2, … in order |
| Dashboard.DaysInOrder | client/src/pages/Dashboard.tsx:59-69 | day `d` sits in cell `first + d - 1`, and the days are increasing and within the month |
| Dashboard.ExactlyOneHighlight | client/src/pages/Dashboard.tsx:98-101 | when today is in the month, exactly one cell is highlighted, the one holding today |
| Dashboard.NoHighlightOutsideMonth | client/src/pages/Dashboard.tsx:98-101 | a day outside the month highlights no cell |
| Dashboard.OrMock | client/src/pages/Dashboard.tsx:212-214 | `data || mock`: the arrived result when the query's JavaScript value is truthy, the sample data when it is not |
| Dashboard.OrPicksArrivedResult | client/src/pages/Dashboard.tsx:212-214 | JavaScript `||` keeps the query's own value exactly when the result has arrived, whatever it holds |
| Dashboard.ArrivedEmptyListShown | client/src/pages/Dashboard.tsx:213-214 | an arrived empty list is shown as empty and not replaced by the sample rows |
| Dashboard.InvitationRows | client/src/pages/Dashboard.tsx:610-612 | the card lists `min(pendingInvitations, 3)` rows, none when the count is not positive |
| Dashboard.SampleInvitations | client/src/pages/Dashboard.tsx:158-165 | without statistics the card lists the three sample invitations |
| Sidebar.ActiveOnOwnPage | client/src/components/layout/Sidebar.tsx:62-67 | every entry is active on its own page |
| Sidebar.SubPages | client/src/components/layout/Sidebar.tsx:63-66 | a sub-page activates a non-dashboard entry ('/sessions/new' marks '/sessions') but never the dashboard entry |
| Sidebar.ActiveEntries | client/src/components/layout/Sidebar.tsx:51-67 | the active entries are exactly the menu entries `isActive` accepts |
| Sidebar.PrefixesNest | client/src/components/layout/Sidebar.tsx:66 | two prefixes of one location nest |
| Sidebar.MenuPathsPrefixFree | client/src/components/layout/Sidebar.tsx:51-60 | no menu path is a prefix of another |
| Sidebar.AtMostOneActive | client/src/components/layout/Sidebar.tsx:51-67 | whatever the location, at most one menu entry is active |
| ProtectedRoute.Decide | client/src/components/auth/ProtectedRoute.tsx:48-85 | the spinner while checking or loading; then the login redirect carrying the path; then the dashboard redirect on guest-only routes; unauthorized exactly when a loaded user type is outside the allowed list; never unauthorized without a list |
| ProtectedRoute.ChildrenOnlyWhenAllowed | client/src/components/auth/ProtectedRoute.tsx:48-85 | the page renders only when nothing is pending, the sign-in state fits the route and a loaded user type is allowed |
| ProtectedRoute.RequireAuthDefaultsToTrue | client/src/components/auth/ProtectedRoute.tsx:9-19 | a route that leaves `requireAuth` out behaves as one that sets it to true |
| AuthMiddleware.SplitSpaces | server/src/middleware/auth.js:12 | splitting on spaces gives at least one piece, and a string without spaces is one piece |
| AuthMiddleware.SplitAfterWord | server/src/middleware/auth.js:12 | a first word without spaces splits off at the space after it |
| AuthMiddleware.TokenOfBearer | server/src/middleware/auth.js:8-12 | the header 'Bearer ' + token gives back the token when the token has no spaces |
| AuthMiddleware.VerifyErrorMessage | server/src/middleware/auth.js:24-32 | 'Token has expired' exactly for TokenExpiredError, 'Invalid token' exactly for JsonWebTokenError, 'Authentication failed' exactly for the rest |
| AuthMiddleware.Authenticate | server/src/middleware/auth.js:4-34 | a missing or non-Bearer header gets 401 'Authentication required'; the request passes exactly when the token verifies, carrying the decoded claims; every rejection is a 401 with the mapped message |
| AuthMiddleware.RejectionMessages | server/src/middleware/auth.js:8-32 | a rejection carries one of the four middleware messages |
| AuthMiddleware.AuthorizeRoles | server/src/middleware/auth.js:37-46 | 403 exactly when there is no user or its type is not among the roles; otherwise the same user passes on |
| AuthMiddleware.AuthenticateThenAuthorize | server/src/middleware/auth.js:4-46 | a request passes both checks exactly when its token verifies to claims whose type is among the roles |
| ErrorHandler.HandleError | server/src/middleware/errorHandler.js:13-73 | validation errors give 400 with `errors`; database 400; not found 404; code 23505 409 with the detail or else the message; auth errors 401; malformed JSON 400; the rest `statusCode` or 500; the stack appears exactly for a non-production 500 of the default branch; `errors` exactly for validation errors |
| ErrorHandler.ProductionHidesInternals | server/src/middleware/errorHandler.js:66-73 | in production a default-branch 500 shows 'Internal server error' and no stack |
| ErrorHandler.NameBeatsCode | server/src/middleware/errorHandler.js:15-44 | a ValidationError carrying code 23505 still gets 400 |
| ErrorHandler.DefaultIsServerError | server/src/middleware/errorHandler.js:63 | an error without a status code, or with 0, is a 500 |
| ErrorHandler.StatusComesFromError | server/src/middleware/errorHandler.js:13-73 | the status is one of the handler's fixed ones or the error's own status code |
| AuthController.NewRow | server/src/controllers/auth.js:20-29 | the inserted row carries the request's fields and the hash; a falsy bio, location or rate is stored as null |
| AuthController.NewProfile | server/src/controllers/auth.js:39-46 | the musician profile takes the request's values, with defaults 0, false, false and null for falsy ones |
| AuthController.ZeroRateBecomesNull | server/src/controllers/auth.js:28 | a rate of 0 is stored as null |
| AuthController.RowJson | server/src/controllers/auth.js:53-57 | the serialised row has the id, the e-mail and the password hash |
| AuthController.Public | server/src/controllers/auth.js:49 | the object sent has no password hash and every other key unchanged |
| AuthController.UserStore.constructor | server/src/db/migrations/20250621_init.js:9-11 | the tables start empty, with the unique e-mail index and the user-type enum holding |
| AuthController.UserStore.Register | server/src/controllers/auth.js:6-62 | a taken e-mail gets 409 and changes nothing; a type outside the enum is passed to the error handler and changes nothing; otherwise one row is inserted under a fresh id, a profile exactly for musicians, and 201 carries the user without its hash and a token for its claims |
| AuthController.UserStore.InsertUser | server/src/controllers/auth.js:20-29 | the row is stored under its e-mail and its fresh id, the id counter advances, and the unique e-mail index and the user-type enum still hold |
| AuthController.UserStore.InsertProfile | server/src/controllers/auth.js:39-46 | the profile is stored under the musician's id and nothing else changes |
| AuthController.UserStore.Login | server/src/controllers/auth.js:65-102 | an unknown e-mail and a wrong password get the identical 401; a match gets 200 with the user without its hash and a token for its claims |
| AuthController.UserStore.GetCurrentUser | server/src/controllers/auth.js:105-125 | a missing id gets 404; otherwise 200 with that user, its profile or null, and no hash |
| AuthController.UserStore.ChangePassword | server/src/controllers/auth.js:128-157 | a missing id gets 404 and a wrong current password 401, both leaving the table unchanged; on success only that user's hash is replaced |
| Contracts.ServerMessagesDriveLogout | client/src/store/authSlice.ts:186 | a 401 from the middleware makes the client log out exactly when the token failed verification as expired or malformed |
| Contracts.ClientHeaderReachesServer | server/src/middleware/auth.js:8-20 | the client's 'Bearer ' header is authenticated exactly when its token verifies |
| Contracts.ExpiredTokenSignsOut | client/src/store/authSlice.ts:181-191 | an expired stored token ends signed out, and a guarded page then redirects to login remembering the path |
| Contracts.SignedTokenCarriesUserType | server/src/controllers/auth.js:32-36 | a token the server signed authenticates as that user's claims, so a role check passes exactly when the user's type is among the roles |

## Left out

- Rendering (JSX and MUI), layout components, the App route table, the notification component and the header are not part of this model; they compose views without decisions.
- The socket relay on the server and the client socket are not part of this model; they are event delivery by a library.
- The RTK Query endpoints in `api.ts`, the store setup, the knex and database setup, the logger and the route table are wiring and are not part of this model.
- The selectors at the end of `authSlice.ts` and `uiSlice.ts` only read a field and are not modelled.
- The `checkAuth` effect of the route guard (localStorage, dispatch timing) is not modelled; its outcome enters `ProtectedRoute.Decide` as the `isChecking` and `loading` inputs.
- Network requests: the login and register thunks are modelled by the outcome of their request (`AuthSlice.Response`), and the current-user request by a `fetch` parameter.
- bcrypt hashing and comparison, and JWT signing and verification, are parameters (a hash value, `compare`, `sign`, `verify`); their cryptographic properties are not modelled.
- Dates are integer milliseconds. An Invalid Date, the Date API's weekday and month length (the calendar takes them as inputs) and date formatting are not modelled.
- `toLowerCase` is modelled for ASCII letters only; other characters are left as they are.
- `localeCompare` is modelled as comparison by character code; locale collation is not modelled.
- `Number(s)` is modelled for optionally signed decimal literals with an optional fraction; exponents, hexadecimal, binary and octal literals and `Infinity` read as NaN in the model.
- `parseInt` on the rows-per-page menu is not modelled; `HandleChangeRowsPerPage` takes the chosen number.
- `SessionsList.SortSessions`: `Array.prototype.sort` is modelled as a stable insertion sort; the contract is the one every sort meets (sorted and a permutation).
- `SessionsList.SessionsListPage.SearchParams`: the round trip through the URL is proved for a status filter other than the empty string; the select never offers the empty string.
- The search form's submit handler only prevents the default and is not modelled.
- The server's schema validation (Objection and AJV) is not modelled beyond the user-type enum and the unique e-mail index of the migration, which are `AuthController.UserStore.Valid`.
- `AuthController.UserStore.Register`: the user and profile inserts are not in one transaction in the source; a failure between them is not modelled. Timestamps and the server's logging are not modelled.
- `AuthController.UserStore.GetCurrentUser`: the attached musician profile is represented by its key, not by its columns.
- `Register.RegisterPage.HandleNext`: on steps 0 and 1 the form's submit handler is `handleNext`, which does not call `preventDefault`; the browser's own form submission that then follows (a reload of the page with the named fields, the password included, in the query string, which loses the wizard's state) is not modelled. The model shows only the step advance.
- `AuthController.UserStore.Register`, `AuthController.UserStore.Login` and `AuthController.UserStore.ChangePassword`: the paths that end in the error handler are not modelled. A missing password, current password or new password makes bcrypt throw, which the error handler answers with 500 rather than 401. A missing e-mail makes the database query throw. `jwt.sign` can throw, for example with no secret set. Two concurrent registrations with one e-mail can both pass the existence check; the second then fails on the unique index with code 23505 and gets 409 'Conflict with existing data' instead of 'User with this email already exists'. The model's request fields are always strings, `sign` is a total function and requests are handled one at a time.
- `Register.RegisterPage.HandleNext` and `Register.RegisterPage.HandleBack` require a step the buttons allow (Next before the last step, Back after the first), as the page offers them.
