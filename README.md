# SmartSched UI in Dafny

A model of the front-end logic of SmartSched, a React application for university timetables.
Admins and schedulers sign in. They keep lists of teachers, classrooms and sections, and start an
optimising solver on the backend that generates a section's timetable. The page that starts the
solver polls its status until the run ends. The timetables can then be browsed by teacher,
classroom or section.

The model covers these parts:

- **Session.** `AuthProvider` holds the token and the user record, restored from `localStorage`
  at start-up and set or cleared by login and logout.
- **Shared HTTP client.** It normalises the base URL. Its request interceptor attaches the stored
  bearer token. Its response interceptor wipes the stored session on 401 and 403.
- **Access control.** The route table, with each route's guard, the banner rule and the
  navigation links.
- **Pages.** Each page is a class whose fields are the component's state and whose methods are its
  handlers. Every network reply is a method parameter.
- **Generation page.** Its asynchrony is explicit:
  - `Submit` runs the handler up to its `await`, and `SolveReplied` runs the rest when the reply
    arrives;
  - each status check is sent by `StartPoll`, and its reply is handled by `PollReplied`;
  - interval firings are `Tick`, and the delayed navigation is `Settle`.

  Any order in which these events can arrive is a sequence of method calls.

Modules, one per source file, plus shared helpers:

| module | file |
|---|---|
| `Js` | JavaScript runtime behaviour: `parseInt`, `String(n)`, `localeCompare` as a total order, `indexOf` and `replace` on strings |
| `Web` | `localStorage` and `window.location` as a `Browser` class |
| `Api` | src/services/api.js |
| `Auth` | src/context/AuthContext.js |
| `Access` | src/components/ProtectedRoute.js |
| `Routes` | src/App.js |
| `Entities`, `Lists`, `Sorting` | the records, the id-based list updates, and `Array.prototype.sort` modelled as insertion sort |
| `Sections`, `Classrooms`, `Teachers` | the three CRUD pages |
| `Schedule` | src/components/SchedulePage.js |
| `Generate` | src/components/GenerateSchedulePage.js |
| `Home` | src/components/HomePage.js |
| `Login`, `Register`, `AuthErrors` | the sign-in and sign-up pages and the error text they share |
| `AdminUsers` | src/components/AdminUsersPage.js |
| `Session` | how the response interceptor and the session meet after a 401/403 |

Three facts about the code shape the model:

- **Stale replies.** The generation page has no generation counter and does not discard old poll
  replies. The first status check and the first interval check can overlap, and an older reply
  still updates the page after completion (`Generate.StaleStatusAfterCompletion`).
- **Session after 401/403.** The response interceptor clears only `localStorage` and assigns
  `/login?sessionExpired=true`. It cannot reach the provider's state. Until that page loads, the
  provider still reports a signed-in user, and requests carry no token (`Session.ExpiredRequest`).
- **One run per page.** The generation form is rendered only while no error, success or status
  message is shown, and its button is disabled while a request is out. No handler except the
  submit itself clears those messages. So in every reachable state a page has sent at most one
  solve request, holds at most one live interval, and never enables the button again once it has
  sent one (`Generate.OneRunPerPage`, an invariant every handler keeps).

## Model

| member | source | states |
|---|---|---|
| Api.ServerMessage | src/components/SectionsPage.js:101 | `err.response?.data?.message`: empty without a response; a non-empty result is the response's message |
| Api.MessageOr | src/components/SectionsPage.js:101 | the server's `data.message` when it has one, otherwise the fallback |
| Api.NormalizedBaseUrl | src/services/api.js:4-12 | the base URL always ends with `/api`; a value already ending with `/api` is kept; otherwise `api` or `/api` is appended according to a trailing slash |
| Api.ComputeBaseUrl | src/services/api.js:4-14 | the module's three reassignments of `apiBaseUrl` compute `NormalizedBaseUrl` of the environment value |
| Api.UnsetBaseUrlIsDefault | src/services/api.js:4 | an unset or empty variable gives `http://localhost:8080/api` |
| Api.NormalizedKeepsApiUrl | src/services/api.js:7-12 | a value ending with `/api` is returned unchanged |
| Api.NormalizeIdempotent | src/services/api.js:7-12 | normalising a normalised URL changes nothing |
| Api.RequestConfig.constructor | src/services/api.js:63-64 | a request configuration holds the headers it is given |
| Api.AttachToken | src/services/api.js:65-68 | with a stored token, `Authorization: Bearer <token>` is set and no other header changes; without one, the headers are untouched |
| Api.OnResponseError | src/services/api.js:96-106 | on 401/403, exactly `token` and `user` leave storage and the location becomes `/login?sessionExpired=true`; on other errors, storage and location are unchanged; every error is rejected unchanged |
| Api.IsAuthFailure | src/services/api.js:96 | only a response with status 401 or 403 counts; an error without a response never does |
| Web.Browser.constructor | src/services/api.js:65 | the browser starts with the given storage and location |
| Web.Browser.GetItem | src/services/api.js:65 | `getItem` returns the stored value, with "" (falsy, like `null`) for a missing key |
| Web.Browser.SetItem | src/context/AuthContext.js:68-69 | exactly one key is written and the location is unchanged |
| Web.Browser.RemoveItem | src/services/api.js:99-100 | exactly one key is removed and the location is unchanged |
| Web.Browser.Clear | src/context/AuthContext.js:40 | storage becomes empty and the location is unchanged |
| Web.Browser.Assign | src/services/api.js:103 | only the location changes |
| Auth.InitialUser | src/context/AuthContext.js:15-23 | a missing user key or a user that does not parse gives `null`; otherwise the parsed value |
| Auth.InitialToken | src/context/AuthContext.js:14 | a token exists exactly when a non-empty token is stored, and it is that value |
| Auth.AuthUrl | src/context/AuthContext.js:53-55 | the base and path are joined with exactly one slash, whether or not the base ends with one |
| Auth.AuthUrlOfApiBase | src/context/AuthContext.js:53-55 | a base ending with `/api` is joined as `base/path` |
| Auth.LoginUrlOfNormalizedBase | src/context/AuthContext.js:53-55 | the login URL is the normalised base URL followed by `/auth/login` |
| Auth.AuthProvider.constructor | src/context/AuthContext.js:14-25 | token and user read from storage independently; not loading; restore pending |
| Auth.AuthProvider.Restore | src/context/AuthContext.js:27-46 | with both keys stored, the session adopts them when the user parses, and storage and session are wiped when it does not; otherwise nothing changes; the initial check ends either way |
| Auth.AuthProvider.Login | src/context/AuthContext.js:49-77 | the request goes to the joined login URL; on success the token and `{username, role}` are in memory and in storage under exactly the two keys; on failure nothing changes and the error is returned |
| Auth.AuthProvider.Register | src/context/AuthContext.js:80-96 | the request goes to the joined register URL; token and user never change; the reply's outcome is returned |
| Auth.AuthProvider.Logout | src/context/AuthContext.js:99-110 | token and user are null, exactly the two keys are gone, the location is `/login`; the session is then neither authenticated nor admin; a second logout leaves storage as it was |
| Auth.AuthProvider.IsAuthenticated | src/context/AuthContext.js:116 | signed in only with a token and a non-null user |
| Auth.AuthProvider.IsAdmin | src/context/AuthContext.js:117 | an admin only when the user is an object whose role is `ROLE_ADMIN` |
| Auth.LoginSurvivesReload | src/context/AuthContext.js:14-23 | with a faithful JSON codec, what a login stores is what the next start-up restores |
| Auth.TokenWithoutUserAtStart | src/context/AuthContext.js:14-23 | storage holding only a token gives a token and a null user in memory, which is not signed in |
| Access.Gate | src/components/ProtectedRoute.js:10-37 | the placeholder while given a session still loading; the login redirect with `from` when signed out; the children exactly when no role list is given or the user's role is listed; otherwise the redirect home with `Access Denied` |
| Access.RoleListed | src/components/ProtectedRoute.js:29 | `includes(user?.role)`: some listed role equals the user's role; a user without a role matches none |
| Access.GateMonotone | src/components/ProtectedRoute.js:29-36 | widening the role list never turns an admitted user away; an empty list admits nobody |
| Routes.MatchSchedule | src/App.js:117 | `/schedule/:type/:id` matches two non-empty, slash-free segments, and the path is rebuilt from them |
| Routes.MatchRoute | src/App.js:69-139 | each fixed path selects its own route and only that path selects it; a schedule route is selected exactly when the `/schedule/:type/:id` pattern matches, with those two segments |
| Routes.GuardOf | src/App.js:69-139 | only login, register and about are unguarded; only `*` is the fallback; every guarded route admits admins, and schedulers everywhere except `/admin/users` |
| Routes.Resolve | src/App.js:69-139 | a page shown is the matched route; the placeholder only while loading on a guarded route; a redirect carrying `from` goes to `/login` with the current path for a signed-out visitor; one carrying an error goes to `/` with Access Denied for a signed-in one |
| Routes.PublicRoutesUngated | src/App.js:71-73 | `/login`, `/register` and `/aboutus` carry no guard: the route table shows their page whatever session it is given |
| Routes.SharedRoutesAdmitStaff | src/App.js:76-123 | for a signed-in user, the six staff routes show their page exactly for admins and schedulers; otherwise the user is sent home with `Access Denied` |
| Routes.ScheduleRouteMatches | src/App.js:116-123 | every `/schedule/{type}/{id}` with plain segments selects the schedule route with those parameters |
| Routes.AdminUsersAdminOnly | src/App.js:126-133 | `/admin/users` shows its page only for admins |
| Routes.ProtectedPathsWaitThenLogin | src/components/ProtectedRoute.js:14-27 | a protected path given a session still loading shows the placeholder; a signed-out visitor is redirected to `/login` carrying the path |
| Routes.CatchAllRedirect | src/App.js:136-139 | an unmatched path redirects to `/` when signed in and to `/login` otherwise, reading nothing else of the session |
| Routes.ProviderWaitsForSession | src/context/AuthContext.js:125-126 | inside `AuthProvider` nothing of the route table renders until the session check ends, so the gate's placeholder never shows; afterwards every path resolves with the restored session |
| Routes.DeniedHomeRedirectsToItself | src/components/ProtectedRoute.js:29-33 | a signed-in user with neither role is redirected from `/` to `/` again |
| Routes.ShowBanner | src/App.js:28 | the banner shows exactly on the paths that open the home page and the about page |
| Routes.NavLinks | src/App.js:36-57 | the Users link shows exactly for a signed-in admin; About always shows; Login shows exactly when signed out and Home exactly when signed in |
| Routes.NavLinksMatchAccess | src/App.js:36-57 | the Users link appears exactly for a signed-in admin; signed-out visitors never see it; for staff roles every link leads to a page they may open |
| Js.EndsWithConcat | src/services/api.js:7-12 | a string followed by a suffix ends with that suffix |
| Js.CompareStrings | src/components/ClassroomsPage.js:215 | the comparison is zero exactly for equal strings |
| Js.CompareStringsAntisymmetric | src/components/ClassroomsPage.js:215 | swapping the arguments flips the order, so any two strings are ordered |
| Js.CompareStringsTransitive | src/components/ClassroomsPage.js:215 | the order is transitive |
| Js.CompareStringsStrictTransitive | src/components/HomePage.js:112 | the strict order is transitive |
| Js.DigitChar | src/components/SectionsPage.js:112 | a digit value is drawn as a decimal digit character |
| Js.NatToString | src/components/SectionsPage.js:112 | `toString()` of a natural number is a non-empty digit string without a leading zero |
| Js.SkipWhiteSpace | src/components/SectionsPage.js:63 | the leading JavaScript white space (tab, vertical tab, form feed, BOM, every space separator, and the line terminators LF, CR, U+2028 and U+2029) is dropped, and the result is a suffix of the input that starts with no white space |
| Js.DigitRunLength | src/components/SectionsPage.js:63 | the leading run of digits has that length and is followed by a non-digit or the end |
| Js.DigitsValueOfNatToString | src/components/SectionsPage.js:63 | reading the digits of a number gives back the number |
| Js.DigitRunOfDigits | src/components/SectionsPage.js:63 | a string of digits is one digit run |
| Js.ParseDigitsOfNatToString | src/components/SectionsPage.js:63 | parsing a number's digits gives back the number |
| Js.SkipWhiteSpaceOfNonBlank | src/components/SectionsPage.js:63 | a string not starting with white space is not shortened |
| Js.ParseIntSkipsIdeographicSpace | src/components/ClassroomsPage.js:53-56 | a capacity typed as an ideographic space followed by `5` parses to 5 |
| Js.ParseInt | src/components/SectionsPage.js:63 | blank text is NaN; a negative result comes only from a leading minus after the white space |
| Js.IntToString | src/components/SectionsPage.js:112 | a non-empty rendering that starts with a minus exactly for a negative integer, followed by digits only |
| Js.ParseIntOfIntToString | src/components/SectionsPage.js:63-64 | `parseInt(String(i), 10) === i` for every integer, negative ones included |
| Js.ParseIntOfEmpty | src/components/SectionsPage.js:66 | an empty field parses to `NaN`, so it is not a positive number |
| Js.IndexOf | src/components/AdminUsersPage.js:97 | the first position where the pattern occurs, or none when it occurs nowhere |
| Js.SplitAt | src/components/LoginPage.js:17 | a string is cut at its first occurrence of a character, and the two parts rebuild it |
| Js.SplitAtFirst | src/components/LoginPage.js:17 | a cut falls at the first occurrence, whatever follows it |
| Js.Split | src/components/LoginPage.js:17-18 | `split` gives at least one piece, and no piece contains the separator |
| Js.JoinSplit | src/components/LoginPage.js:17-18 | joining the pieces with the separator rebuilds the string |
| Js.SplitJoin | src/components/LoginPage.js:17-18 | pieces free of the separator, once joined, split back into themselves |
| Js.ReplaceFirst | src/components/AdminUsersPage.js:97 | `replace` with a string pattern: without an occurrence the text is kept; otherwise only the first occurrence is swapped for the replacement and the text around it is kept |
| Lists.ReplaceById | src/components/SectionsPage.js:91-93 | same length; elements with the id become the replacement and all others stay in place |
| Lists.RemoveById | src/components/SectionsPage.js:133 | the survivors are elements of the list without the id, and every such element survives |
| Lists.RemoveByIdCounts | src/components/SectionsPage.js:133 | each element without the id survives as often as it occurs, and none with the id survives |
| Lists.RemoveByIdConcat | src/components/SectionsPage.js:133 | filtering two lists joined is filtering each and joining, so the survivors keep their order |
| Lists.FindById | src/components/SectionsPage.js:124 | an element is found exactly when one has the id, and it carries that id |
| Lists.ReplaceUniqueId | src/components/SectionsPage.js:91-93 | with a unique id, the update replaces exactly that element and keeps length and order |
| Lists.RemoveAbsentId | src/components/SectionsPage.js:133 | removing an absent id keeps the list |
| Lists.RemoveUniqueId | src/components/SectionsPage.js:133 | removing a unique id deletes exactly that element and keeps the order of the rest |
| Sorting.Insert | src/components/ClassroomsPage.js:215 | inserting adds exactly one occurrence of the element |
| Sorting.Sort | src/components/ClassroomsPage.js:215 | the sorted list is a permutation of the input |
| Sorting.InsertSorted | src/components/ClassroomsPage.js:215 | inserting into a sorted list keeps it sorted |
| Sorting.SortSorted | src/components/ClassroomsPage.js:215 | sorting with a consistent comparator gives an ordered list |
| Sorting.DistinctOccursOnce | src/components/HomePage.js:112 | a list without duplicates holds each value at most once |
| Sorting.DistinctPermutation | src/components/HomePage.js:112 | a permutation of a list without duplicates has none either |
| Sorting.SortedDistinctStrict | src/components/HomePage.js:112 | a sorted list without duplicates is strictly ordered |
| Sections.CheckForm | src/components/SectionsPage.js:63-81 | accepted exactly when both numbers parse in base 10 and are positive; the year level is checked first; when accepted, the text fields are kept and the numbers are the parsed integers |
| Sections.EditedFormRoundTrip | src/components/SectionsPage.js:108-118 | saving a section loaded into the form unchanged submits its own values; a non-positive year level is rejected |
| Sections.CompareSections | src/components/SectionsPage.js:251-255 | zero exactly for equal program, year level and name; negative exactly when the first sorts earlier by program, then year level, then name |
| Sections.CompareSectionsConsistent | src/components/SectionsPage.js:251-255 | the comparator orders any two sections and is transitive |
| Sections.DisplayOrderSorted | src/components/SectionsPage.js:249-255 | the table is a permutation of the sections, ordered by program, then year level, then name |
| Sections.DeletePrompt | src/components/SectionsPage.js:124-129 | the question names the first section with the id by `program yearLevel-sectionName`, or says "this section" |
| Sections.SectionsPage.constructor | src/components/SectionsPage.js:22-38 | the fetched list, or an empty list with the load error |
| Sections.SectionsPage.ResetForm | src/components/SectionsPage.js:46-55 | empty fields, not editing, no id; nothing else changes |
| Sections.SectionsPage.Submit | src/components/SectionsPage.js:58-105 | a rejected form shows its error and sends nothing; a non-admin edit is refused; otherwise a PUT (edit) or POST (create) is sent; on success, edit replaces by id or create appends, then the form resets; on failure, the save error with the server message |
| Sections.SectionsPage.Edit | src/components/SectionsPage.js:108-118 | an admin loads the section into the form and edits its id; for others it does nothing |
| Sections.SectionsPage.Delete | src/components/SectionsPage.js:121-142 | only an admin is asked, and only a confirmed delete is sent; success removes every section with the id and resets the form if it was editing that one; failure shows the delete error |
| Classrooms.CheckForm | src/components/ClassroomsPage.js:53-63 | accepted exactly when the capacity parses in base 10 and is positive; name and type are kept |
| Classrooms.EditedFormRoundTrip | src/components/ClassroomsPage.js:90-99 | saving a classroom loaded into the form unchanged submits its own values |
| Classrooms.CompareClassrooms | src/components/ClassroomsPage.js:215 | zero exactly for equal names, and the two argument orders give opposite signs |
| Classrooms.CompareClassroomsConsistent | src/components/ClassroomsPage.js:215 | the comparator orders any two classrooms and is transitive |
| Classrooms.DisplayOrderSorted | src/components/ClassroomsPage.js:215 | the table is a permutation of the classrooms, ordered by name |
| Classrooms.DeletePrompt | src/components/ClassroomsPage.js:105-108 | the question names the first classroom with the id, or says "this classroom" |
| Classrooms.ClassroomsPage.constructor | src/components/ClassroomsPage.js:17-33 | the fetched list, or an empty list with the load error |
| Classrooms.ClassroomsPage.ResetForm | src/components/ClassroomsPage.js:41-45 | empty fields, not editing, no id; nothing else changes |
| Classrooms.ClassroomsPage.Submit | src/components/ClassroomsPage.js:48-87 | as for sections, with the capacity check: replace by id on edit, append on create, reset on success, error on refusal or failure |
| Classrooms.ClassroomsPage.Edit | src/components/ClassroomsPage.js:90-99 | an admin loads the classroom into the form; for others it does nothing |
| Classrooms.ClassroomsPage.Delete | src/components/ClassroomsPage.js:102-121 | admin-only, confirmed deletes; success filters out the id and resets the form if it was editing that classroom |
| Teachers.CompareTeachers | src/components/TeachersPage.js:191 | zero exactly for equal names, and the two argument orders give opposite signs |
| Teachers.CompareTeachersConsistent | src/components/TeachersPage.js:191 | the comparator orders any two teachers and is transitive |
| Teachers.DisplayOrderSorted | src/components/TeachersPage.js:191 | the table is a permutation of the teachers, ordered by name |
| Teachers.DeletePrompt | src/components/TeachersPage.js:92-95 | the question names the first teacher with the id, or says "this teacher" |
| Teachers.TeachersPage.constructor | src/components/TeachersPage.js:17-34 | the fetched list, or an empty list with the load error |
| Teachers.TeachersPage.ResetForm | src/components/TeachersPage.js:42-46 | empty fields, not editing, no id; nothing else changes |
| Teachers.TeachersPage.Submit | src/components/TeachersPage.js:49-78 | the form is sent as it is, with no numeric check; a non-admin edit is refused; replace by id, append, reset and error as for sections |
| Teachers.TeachersPage.Edit | src/components/TeachersPage.js:81-86 | an admin loads the teacher into the form; for others it does nothing |
| Teachers.TeachersPage.Delete | src/components/TeachersPage.js:89-108 | admin-only, confirmed deletes; success filters out the id and resets the form if it was editing that teacher |
| Schedule.MapOf | src/components/SchedulePage.js:30-33 | every record is stored under its own id, and there are no more keys than records |
| Schedule.MapOfKeys | src/components/SchedulePage.js:30-33 | the map's keys are exactly the ids in the list |
| Schedule.MapOfLastWins | src/components/SchedulePage.js:30-33 | each id maps to the last record carrying it |
| Schedule.CreateMap | src/components/SchedulePage.js:30-33 | the `reduce` loop builds exactly that map: its keys are the ids, and every last record of an id sits under it |
| Schedule.DuplicateIdLaterWins | src/components/SchedulePage.js:30-33 | of two records sharing an id, the later one is kept |
| Schedule.FindOwner | src/components/SchedulePage.js:63-66 | an owner is found exactly when the type is teacher, classroom or section and its map holds the id; it is that record |
| Schedule.FilterByOwner | src/components/SchedulePage.js:81-86 | an entry is kept exactly when its teacher, classroom or section id (by type) equals the id |
| Schedule.FilterByOwnerCounts | src/components/SchedulePage.js:81-86 | each entry of the owner is kept as often as the server sent it, and no other entry is kept |
| Schedule.FilterByOwnerConcat | src/components/SchedulePage.js:81-86 | the filter works piece by piece, so the kept entries keep the server's order |
| Schedule.UnknownTypeKeepsNothing | src/components/SchedulePage.js:85 | any other type keeps no entry |
| Schedule.EntityName | src/components/SchedulePage.js:199-220 | in order: a falsy id gives "N/A", an empty map "Loading...", a missing record "Not Found", a section its label, anything else its name or "Unnamed {type}" |
| Schedule.EntityNameAfterFetch | src/components/SchedulePage.js:30-40 | once the maps are built from the fetched lists, a teacher's entries show that teacher's name |
| Schedule.OwnerLabel | src/components/SchedulePage.js:179-185 | a teacher or classroom shows its name, a section `program yearLevel-sectionName`, any other type `Unknown` |
| Schedule.OwnerName | src/components/SchedulePage.js:178-197 | the owner in state gives its label; otherwise, when loaded, the lookup maps; otherwise "Selected {type}" |
| Schedule.DayIndex | src/components/SchedulePage.js:223-267 | the position of the day in MONDAY..SUNDAY, or -1 exactly for other values |
| Schedule.CompareEntries | src/components/SchedulePage.js:265-281 | negative exactly when the first entry falls on an earlier day, or on the same day with an earlier start text; zero exactly for the same day and start |
| Schedule.CompareEntriesConsistent | src/components/SchedulePage.js:265-283 | the comparator orders any two entries and is transitive |
| Schedule.DisplayOrderByDay | src/components/SchedulePage.js:265-283 | the table is a permutation of the entries, sorted by day index and, within a day, by start time as text |
| Schedule.FirstRowEarliest | src/components/SchedulePage.js:264-267 | the first row of the table is one of the entries, on the earliest day of the week among them |
| Schedule.FirstProblemId | src/components/SchedulePage.js:156-157 | the first entry's problemId when it is truthy, otherwise none |
| Schedule.SchedulePage.constructor | src/components/SchedulePage.js:7-14 | no entries, no owner, empty maps, loading |
| Schedule.SchedulePage.FetchLookup | src/components/SchedulePage.js:17-47 | the lists are requested exactly when the teacher map is empty or an error shows; success builds the three maps and clears the error; failure sets the lookup error and stops loading |
| Schedule.SchedulePage.FetchSchedules | src/components/SchedulePage.js:50-96 | callable in every page state, including an owner made stale by a later lookup; waits while the maps are missing or an error shows; a missing owner sets the error naming type and id and sends nothing; otherwise the owner is set and the entries are filtered by owner, or the load error is set; a request leaves the owner matching the maps again |
| Schedule.SchedulePage.Export | src/components/SchedulePage.js:112-149 | other types get the alert and no request; a section downloads under the header's name or `Schedule_Section_{id}.xls`; a failure sets the export error |
| Schedule.SchedulePage.DeleteSchedule | src/components/SchedulePage.js:152-176 | non-admins change nothing; the run is read from the first row in display order, because the render sorts `schedules` in place before the button can be pressed; without a problemId there is only the alert; otherwise the question names that problemId and only a confirmed delete is sent |
| Schedule.SchedulePage.DeleteReplied | src/components/SchedulePage.js:163-174 | success empties the entries, alerts and navigates to `/`; failure sets the error with the server message |
| Schedule.OwnerRefreshedAfterError | src/components/SchedulePage.js:104-109 | after a failed delete the lookup runs again; a renamed owner stays stale in state until the next fetch finds the new record |
| Generate.WithField | src/components/GenerateSchedulePage.js:72 | the spread changes exactly the named field |
| Generate.ChangedSubjects | src/components/GenerateSchedulePage.js:60-79 | only the entry at `index` changes, in the named field, to `checked` for a checkbox and `value` otherwise; an out-of-range index changes nothing |
| Generate.WithoutIndexSlices | src/components/GenerateSchedulePage.js:88 | the filter deletes exactly the entry at `index` and keeps the others in order |
| Generate.PayloadItem | src/components/GenerateSchedulePage.js:166-173 | code and name are copied; the teacher is null exactly when falsy; `isMajor` is its truthiness; the section is the selected one |
| Generate.Payload | src/components/GenerateSchedulePage.js:165-175 | one item per subject, in order, all carrying the same section id |
| Generate.DefaultHoursPayload | src/components/GenerateSchedulePage.js:10-17 | a default subject is sent with no teacher, 3 hours and not major; typed hours are sent as the integer they spell |
| Generate.StartError | src/components/GenerateSchedulePage.js:200-201 | `Error: ` followed by the server message, else the error's message, else the default |
| Generate.MissingProblemIdError | src/components/GenerateSchedulePage.js:182 | a reply without a problemId shows `Error: Backend did not return a problemId.` |
| Generate.ClassifyStatus | src/components/GenerateSchedulePage.js:109-137 | the two solving states keep polling (SOLVING_ACTIVE with the active text), NOT_SOLVING finishes, and any other value is fatal |
| Generate.Generator.constructor | src/components/GenerateSchedulePage.js:7-45 | one default subject, nothing selected, no timers or requests; the fetched lists or the lists error |
| Generate.Generator.AddSubject | src/components/GenerateSchedulePage.js:81-85 | appends a default subject only below ten; the list stays between 1 and 10; nothing else changes |
| Generate.Generator.RemoveSubject | src/components/GenerateSchedulePage.js:86-90 | deletes exactly entry `index` only when more than one remains; the list never becomes empty |
| Generate.Generator.ChangeSubject | src/components/GenerateSchedulePage.js:60-79 | the subjects become `ChangedSubjects`; nothing else changes |
| Generate.Generator.SelectSection | src/components/GenerateSchedulePage.js:91-94 | only the selected section changes |
| Generate.Generator.StopPolling | src/components/GenerateSchedulePage.js:119-120 | the interval in the ref is cleared and the ref emptied |
| Generate.Generator.StartPoll | src/components/GenerateSchedulePage.js:98-104 | the optimising message is shown and one status request is left in flight |
| Generate.Generator.FailPolling | src/components/GenerateSchedulePage.js:129-146 | the ref's interval is cleared, the error is set, loading ends and the status line empties |
| Generate.Generator.CompletePolling | src/components/GenerateSchedulePage.js:113-127 | the ref's interval is cleared, success is set, loading ends, and navigation to `/schedule/section/{id}` is scheduled |
| Generate.Generator.Submit | src/components/GenerateSchedulePage.js:151-178 | called only through the enabled button, so a section is selected; the referenced interval is cleared first; a subject without code or name sets that error and sends nothing; otherwise the payload is sent, loading holds, and the page's one run is counted |
| Generate.Generator.SolveReplied | src/components/GenerateSchedulePage.js:178-203 | a reply with a problemId shows its message or the default, checks once and starts one interval held by the ref; a missing problemId or a failure sets the error, ends loading and starts no polling |
| Generate.Generator.BeginPolling | src/components/GenerateSchedulePage.js:184-196 | the success line, one immediate status request, and a fresh interval whose id replaces the ref |
| Generate.Generator.Tick | src/components/GenerateSchedulePage.js:194-196 | an interval firing sends one more status request for its run |
| Generate.Generator.PollReplied | src/components/GenerateSchedulePage.js:105-146 | solving states only update the status line; NOT_SOLVING completes; other statuses and failures fail; both terminal outcomes first clear the interval in the ref |
| Generate.Generator.Settle | src/components/GenerateSchedulePage.js:125-127 | the scheduled navigation is performed |
| Generate.Generator.Unmount | src/components/GenerateSchedulePage.js:50-55 | the interval in the ref is cleared; the ref itself is kept |
| Generate.ReadyPage | src/components/GenerateSchedulePage.js:229-232 | a page with a section and a complete subject has the submit button enabled |
| Generate.FinishedRun | src/components/GenerateSchedulePage.js:151-204 | a run finishes with success and no live interval; the form is hidden while the request is out, while polling and afterwards |
| Generate.StaleStatusAfterCompletion | src/components/GenerateSchedulePage.js:193-196 | an older status reply landing after completion makes the page show success and "actively solving" together |
| Generate.PollingPage | src/components/GenerateSchedulePage.js:193-196 | an accepted run has one live interval, held by the ref, and one status request out |
| Generate.FailedCheckEndsPage | src/components/GenerateSchedulePage.js:139-146 | a failed check stops the interval, shows its error and keeps the form hidden |
| Generate.RunNavigates | src/components/GenerateSchedulePage.js:50-127 | the finished run navigates to the section's timetable and the unmount finds no interval |
| Generate.OneRunPerPage | src/components/GenerateSchedulePage.js:151-232 | in every state the handlers reach: at most one live interval and one solve request out; the button is enabled only before the page's one run and never after it is sent |
| Home.ProgramKey | src/components/HomePage.js:86 | the program, or `Uncategorized` when it is empty; never empty |
| Home.Members | src/components/HomePage.js:85-92 | the group of `k` takes no more sections than the list holds, all with program key `k` |
| Home.MembersExactly | src/components/HomePage.js:85-92 | a section is in the group of `k` exactly when it is listed and its key is `k` |
| Home.GatherOfEmpty | src/components/HomePage.js:85 | no sections give empty groups |
| Home.GatherSnoc | src/components/HomePage.js:89-90 | one more section joins exactly the group of its key |
| Home.GroupsPartition | src/components/HomePage.js:85-92 | the groups together hold every section exactly as often as the list does |
| Home.GroupStep | src/components/HomePage.js:86-91 | one step of the reduce keeps the grouping invariant |
| Home.GroupByProgram | src/components/HomePage.js:85-92 | distinct keys in first-seen order; every section's key has a group; each group is the non-empty list of its sections in input order |
| Home.MembersAbsent | src/components/HomePage.js:85-92 | a key no section has gets no members |
| Home.CompareFolderEntries | src/components/HomePage.js:23-29 | negative exactly when the year level is lower, or equal with an earlier name; zero exactly for equal year level and name |
| Home.CompareFolderEntriesConsistent | src/components/HomePage.js:23-29 | the folder comparator orders any two sections and is transitive |
| Home.FolderOrderSorted | src/components/HomePage.js:22-29 | a folder lists its sections once each, by year level, then by name |
| Home.CompareNames | src/components/HomePage.js:112 | zero exactly for equal names, and the two argument orders give opposite signs |
| Home.CompareNamesConsistent | src/components/HomePage.js:112 | the name order is consistent and zero only for equal names |
| Home.ProgramNamesSorted | src/components/HomePage.js:112 | sorting the program names loses none and orders them strictly |
| Home.FoldersOf | src/components/HomePage.js:112-117 | one folder per name, in order, holding that program's sections in folder order |
| Home.FoldersPartition | src/components/HomePage.js:112-117 | the folders hold the same sections as the groups |
| Home.ProgramFolders | src/components/HomePage.js:85-117 | folder names strictly sorted; each folder holds its program's sections in folder order and is non-empty; every section's program has a folder; together they hold exactly the fetched sections |
| Home.FoldersCover | src/components/HomePage.js:111-117 | every folder is non-empty and every section's program has one |
| Home.HomePage.constructor | src/components/HomePage.js:54-56 | no sections, loading, no error |
| Home.HomePage.Load | src/components/HomePage.js:59-82 | sections are requested exactly when signed in; success replaces them, failure sets the load error; loading ends either way |
| Home.HomePage.View | src/components/HomePage.js:95-124 | the placeholder while a signed-in user's sections load, then the error, then the no-programs card for an empty list, else the sorted program folders |
| AuthErrors.FailureMessage | src/components/LoginPage.js:47-55 | the server message, then the network text for `ERR_NETWORK`, then `Error: {message}`, then the page's default |
| AuthErrors.FallbackOnlyWhenSilent | src/components/RegisterPage.js:52-60 | the page's default shows exactly when the error carries no server message, no network code and no message |
| Register.CheckPasswords | src/components/RegisterPage.js:23-30 | the form may be sent exactly when the password has at least 8 characters and matches; length is reported first |
| Register.LengthCheckedFirst | src/components/RegisterPage.js:23-30 | a short password that also does not match is reported as short |
| Register.RegisterPage.constructor | src/components/RegisterPage.js:9-13 | empty fields and messages, no redirect pending |
| Register.RegisterPage.Submit | src/components/RegisterPage.js:18-62 | a failed check sets its error and sends nothing; otherwise the register request is sent; success shows the notice, clears all three fields and schedules one redirect; failure sets `FailureMessage`; the session is never touched |
| Register.RegisterPage.RedirectFires | src/components/RegisterPage.js:42-44 | the 3000 ms timer navigates to `/login` |
| Register.SuccessfulRegistration | src/components/RegisterPage.js:32-44 | a successful registration leaves an empty form, the notice and one navigation to `/login`, with the session untouched |
| Login.SearchOf | src/components/LoginPage.js:17 | the query part is empty or starts with `?`, and is empty when there is no `?` |
| Login.PathOf | src/components/LoginPage.js:17 | the path contains no `?`, and path plus query rebuild the location |
| Login.ParamsGet | src/components/LoginPage.js:18 | the value of the first non-empty pair whose name is the key, or none exactly when no pair has that name |
| Login.QueryGet | src/components/LoginPage.js:17-18 | the leading `?` is dropped once; the value is that of the first non-empty `&`-separated pair named by the key, or none exactly when no pair has that name; an empty query has none |
| Login.QuestionMarkDroppedOnce | src/components/LoginPage.js:17-18 | in `?a=1&?b=2` the second pair is named `?b`, so `b` has no value |
| Login.SessionExpired | src/components/LoginPage.js:17-21 | the flag is raised only when some pair of the query is named `sessionExpired` |
| Login.FirstPairWins | src/components/LoginPage.js:17-18 | a query led by `key=value` yields that value, whatever follows |
| Login.LocationParts | src/components/LoginPage.js:17 | a location is cut at its first `?` into path and query |
| Login.ExpiredUrlShape | src/services/api.js:103 | the interceptor's location is `/login` followed by the `sessionExpired=true` query |
| Login.ExpiredQueryFlag | src/components/LoginPage.js:17-21 | that query raises the expired-session flag |
| Login.ExpiredRedirectReported | src/components/LoginPage.js:17-26 | the interceptor's redirect opens the login route with the flag set |
| Login.From | src/components/LoginPage.js:30 | `from` when present and non-empty, otherwise `/` |
| Login.LoginReturnsToRequestedPath | src/components/LoginPage.js:30-39 | a visitor turned away from a protected path returns to exactly that path after signing in |
| Login.LoginPage.constructor | src/components/LoginPage.js:9-26 | empty form; the expired-session error exactly when the query flag is set |
| Login.LoginPage.Submit | src/components/LoginPage.js:32-57 | the login request carries the form; success navigates to `From(from)` with replace and stores exactly the token and the stringified user, the location unchanged; failure sets `FailureMessage` and leaves session and storage as they were |
| AdminUsers.RoleLabelDropsPrefix | src/components/AdminUsersPage.js:141 | a role named with `ROLE_` shows without it; a role without it shows unchanged |
| AdminUsers.StatusLabel | src/components/AdminUsersPage.js:143-147 | "Approved" exactly when enabled and "Pending" exactly when not |
| AdminUsers.RoleLabel | src/components/AdminUsersPage.js:97 | a role without `ROLE_` is shown unchanged; otherwise exactly that prefix's length is dropped |
| AdminUsers.IsSelf | src/components/AdminUsersPage.js:51 | a row is the signed-in user's own only when the user is an object with that username; no signed-in user matches nobody |
| AdminUsers.UserRows | src/components/AdminUsersPage.js:138-159 | one row per user, in order, with username, role label, status label, and delete enabled exactly when it is not the signed-in user's own row |
| AdminUsers.OwnRowDisabled | src/components/AdminUsersPage.js:153 | only the signed-in user's own row has delete disabled; a user record without a username disables none |
| AdminUsers.AdminUsersPage.FetchUsers | src/components/AdminUsersPage.js:15-33 | both lists are replaced only when both replies succeed; otherwise both are kept and the load error is set; loading ends |
| AdminUsers.AdminUsersPage.constructor | src/components/AdminUsersPage.js:9-37 | mounting runs the first fetch |
| AdminUsers.AdminUsersPage.Approve | src/components/AdminUsersPage.js:39-48 | posts to `/users/approve/{id}`; success refetches; failure only sets the approve error |
| AdminUsers.AdminUsersPage.Delete | src/components/AdminUsersPage.js:50-65 | deleting one's own account only alerts and changes nothing else; otherwise the question names the user and only a confirmed delete is sent; success refetches, with the lists and error as `FetchUsers` leaves them, and failure sets the delete error; the no-op paths leave loading and the lists alone |
| Session.ExpiredRequest | src/services/api.js:63-104 | after a 401/403 the stored session is gone, but the provider's signed-in and admin state are unchanged and the next request carries no token |
| Session.ReloadAfterExpiry | src/context/AuthContext.js:14-23 | the page the interceptor opens starts signed out, and its login form reports the expired session |

## Left out

- HTTP transport, `Promise.all`, `window.confirm`, `alert` and the Blob download plumbing are I/O. Every reply, answer and confirmation is a parameter.
- `console` logging and the production banner of src/services/api.js (lines 16-55) are diagnostics and DOM insertion only.
- Real time is left out. `setInterval` and `setTimeout` are explicit events (`Tick`, `Settle`, `RedirectFires`) that may occur in any order the browser allows.
- JSX rendering is modelled only where it decides behaviour: the home page's view, the generation form's visibility, the admin table rows, the banner and the navigation links.
- `handleFormChange` of the three CRUD forms and the login and register inputs are plain field assignments. Fields are set directly.
- The `useEffect` re-runs and React's batching are left out. Each handler runs to its `await` or end as one step, and state written after unmount is not distinguished.
- ConnectionTest.js, AboutUsPage.js, Footer.js, index.js and config-overrides.js are not part of this model. They are presentation, bootstrap and diagnostics.
- Js.CompareStrings: `localeCompare` is modelled as lexicographic order on code points, not the browser's locale collation. Every consistency property holds for any total order.
- Home.CompareNames: the default `sort()` of the program names (src/components/HomePage.js:112) orders by UTF-16 code units. The model orders by code points, which differs only between characters above U+FFFF and characters in U+E000..U+FFFF.
- Schedule.FilterByOwner: ids are assumed to arrive as JSON strings. The filter compares with `===` against the route parameter, a string, while the lookup maps turn every id into a string key. With numeric ids from the backend the owner would still be found, but no entry would pass the filter, so the page would show an empty timetable; the model's string ids cannot show that.
- Login.SearchOf: locations are taken without a `#` fragment. The browser's `location.search` stops at `#` and is empty for a bare trailing `?`; the model keeps both.
- Schedule.DisplayOrderByDay: within a day, start times are compared as text. The `Date.parse` comparison tried first is float date parsing and is not modelled.
- Schedule.SchedulePage.Export: the `content-disposition` regex is not modelled. The reply carries the file name it would capture, or none.
- Sorting.Sort: sorting is a stable insertion sort proved ordered and a permutation. In-place mutation of the React state array by `.sort` is not modelled. `Array.prototype.sort` has been stable since ECMAScript 2019, and a stable sort under a consistent comparator has one result, so the orders can differ only on older engines or with an inconsistent comparator.
- Login.QueryGet: `URLSearchParams` percent-decoding and `+` handling are not modelled. Keys and values are compared as written.
- Js.ParseInt: Dates, hours and capacities parse to exact integers. JavaScript's `parseInt` returns a double, so digit strings beyond 2^53 are rounded there (`9007199254740993` becomes 9007199254740992) and not in the model.
- Home.GroupByProgram: the source groups into a plain object, whose inherited keys (`constructor`, `toString`, `__proto__`) already look set. A program with such a name makes `acc[program].push` throw and the page fail. The model's map has no inherited keys, so it groups that program like any other.
- Schedule.FindOwner: the lookup maps are plain objects too. A route id such as `constructor` finds `Object` in the source, so the page shows a schedule for it instead of the not-found error. The model reports the owner missing.
- Routes.Resolve: ProtectedRoute's loading branch is modelled as written. Inside `AuthProvider` it is never rendered (`Routes.ProviderWaitsForSession`).
- Register.CheckPasswords: the length counts Unicode code points. JavaScript counts UTF-16 code units, so a password with characters outside the BMP is longer in JavaScript.
- AdminUsers.IsSelf: `user.username` throws when no user is signed in. The model treats such a user as matching no account.
- Auth.InitialUser: `JSON.parse` is a `Codec` parameter that may fail. Round trips are proved for a faithful codec only.
- Routes.MatchSchedule: react-router's matching is modelled for exact paths only. Trailing slashes, case and percent-encoding are not modelled.
