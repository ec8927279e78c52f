# CondoLink front end: a verified model

CondoLink is a building-management web application. Residents, subcontractors and
administrators of a condominium sign in and see a dashboard for their role. This
project models the logic of its React front end in Dafny:

- the authentication context: the session in memory and its copy in browser storage,
  login and logout, and the response interceptor that refreshes the access token after a
  401 and replays the request;
- the dashboard context: the one snapshot of users, buildings, blocks, services and
  maintenance tasks, and the guard that keeps two fetches from overlapping;
- the route guard and the dashboard route table;
- the login page and login dialog, the sign-up page and sign-up dialog, the navigation
  bar and the sidebar;
- the admin pages for residents, subcontractors and maintenance, with their dialogs;
- the resident and subcontractor home pages and the task overview dialog.

The model is split into one module per source file, plus five shared modules:

- `Common` holds the JavaScript value semantics the pages rely on: `Number(...)`, truthiness, `||` and `??` on strings, `toLowerCase`, `trim`, `includes`, `filter` and `find`.
- `Email` holds the e-mail pattern `^[^\s@]+@[^\s@]+\.[^\s@]+$`.
- `Dates` holds the date-fns calls used: `parseISO`, `format(..., "dd/MM/yyyy")`, `addMonths`, `isSameMonth`, `isThisMonth` (the same month as `now`), `isBefore`, and `getYear` and `getMonth` (the fields of a `Date`).
- `Records` holds the backend records.
- `Snapshot` holds the list patches the pages apply to the snapshot.

Pure logic is written as functions with lemmas. A component whose state React updates
is a class:

- its `useState` slots are fields;
- each handler is a method with a `modifies` clause;
- its postcondition gives the whole new state, often in terms of a specification function.

Effects on the network are explicit:

- a request a handler sends is an out-parameter;
- how the request settles is an input, as a datatype of the possible replies;
- toasts and alerts are a `Notice` result;
- the current time is a `Moment` parameter.

## Model

| member | source | states |
|---|---|---|
| Common.DecimalRoundTrip | src/components/SignUpModal.tsx:96 | `Number` of the decimal rendering of an integer (an option value, a path segment) gives that integer back |
| Common.Coerce | src/components/SignUpModal.tsx:95-97 | a numeric slot stores "" for an empty value and `Number(value)` otherwise; the stored value is blank exactly when the input was empty |
| Common.CoerceOption | src/components/SignUpModal.tsx:95-97 | choosing an option whose value is the id `n` stores the number `n` |
| Common.IdOrBlank | src/components/SubsModal.tsx:50 | a nullable id with the empty-string fallback is truthy exactly when the id is present and non-zero, and then its number is the id |
| Common.IdOrEmpty | src/components/MaintenanceModal.tsx:60 | `x ?? ""` is blank exactly when the id is null, and otherwise holds the id |
| Common.SelectorOf | src/pages/dashboard/AdminMaintenance.tsx:175 | a filter select reads "all" as no filter, and any other value as `Number(value)` |
| Common.PickOption | src/pages/dashboard/AdminMaintenance.tsx:53-54 | choosing the option of id `n` keeps exactly the rows whose field is `n`; a null field matches no chosen option |
| Common.Or | src/pages/dashboard/AdminResidents.tsx:113 | the string fallback of `a` to `b` is `a` unless `a` is empty, then `b` |
| Common.OrBlank | src/components/SubsModal.tsx:47 | a nullable string with the empty-string fallback is the string, or "" for null |
| Common.Lower | src/pages/dashboard/AdminMaintenance.tsx:43 | lower-casing keeps the length |
| Common.TrimEmpty | src/pages/dashboard/AdminMaintenance.tsx:43-48 | a trimmed term is empty exactly when the term is all white space |
| Common.LowerKeepsSpace | src/pages/dashboard/AdminMaintenance.tsx:43 | lower-casing neither creates nor removes white space |
| Common.LowerIdempotent | src/pages/dashboard/AdminMaintenance.tsx:43 | lower-casing twice is lower-casing once |
| Common.FirstWord | src/components/Navbar.tsx:18 | `split(" ")[0]` is the longest space-free prefix, ended by a space or by the end of the string |
| Common.FirstWordOf | src/components/Navbar.tsx:18 | the first word of `first + " " + rest` is `first` when `first` has no space |
| Common.Filter | src/pages/dashboard/AdminMaintenance.tsx:44 | `filter` keeps exactly the elements that pass, keeps everything when all pass and nothing when none pass |
| Common.FilterSnoc | src/pages/dashboard/ResidentsHome.tsx:73-86 | filtering a list with one more element at the end adds that element exactly when it passes |
| Common.FilterSame | src/pages/Signup.tsx:222-241 | two tests that agree on every element filter a list to the same result, in the same order |
| Common.Find | src/pages/dashboard/AdminMaintenance.tsx:106 | `find` is null exactly when no element passes, and otherwise returns the first element that passes; an element that passes with none passing before it is the result |
| Email.PatternIsAccepted | src/components/SignUpModal.tsx:109 | the pattern accepts a string exactly when it has one `@`, something before it, and a dot inside the domain with something on both sides; none of the parts holds white space or another `@` |
| Dates.DaysInMonth | src/pages/dashboard/ResidentsHome.tsx:45 | every month of the Gregorian calendar has 28 to 31 days |
| Dates.AddMonth | src/pages/dashboard/ResidentsHome.tsx:45 | `addMonths(d, 1)` is a valid date in the following calendar month, its day clamped to that month's length |
| Dates.ParseIso | src/pages/dashboard/ResidentsHome.tsx:48 | a string parses exactly when its date part parses and its time part is empty or parses; the result is a valid date and time of day with a four-digit year |
| Dates.TimeDelimiter | src/pages/dashboard/ResidentsHome.tsx:48 | the date part ends at the first `T` or space, which splits the date from the time |
| Dates.ParseDatePart | src/pages/dashboard/ResidentsHome.tsx:48 | an accepted date part is a valid date with a four-digit year |
| Dates.ParseTime | src/pages/dashboard/ResidentsHome.tsx:48 | an accepted time part is a time of day shorter than a day, written `HH` or starting `HH:` |
| Dates.IsoDateParts | src/pages/dashboard/AdminMaintenance.tsx:28 | the `yyyy-MM-dd` text of a date is its own date part, with no delimiter in it |
| Dates.JoinedAtDelimiter | src/pages/dashboard/ResidentsHome.tsx:48 | a date text joined to a time by `T` or a space is cut at that delimiter |
| Dates.HourMinute | src/pages/dashboard/ResidentsHome.tsx:48 | `HH:mm` reads as that hour and minute |
| Dates.HourMinuteThenText | src/pages/dashboard/ResidentsHome.tsx:48 | `HH:mm` followed by text other than `:ss` is refused |
| Dates.IsoDateTimeRoundTrip | src/pages/dashboard/ResidentsHome.tsx:48 | a date and an `HH:mm` time joined by `T` or by a space parse back to that day and time |
| Dates.TrailingTextRefused | src/pages/dashboard/ResidentsHome.tsx:48 | a date-time with trailing text after `HH:mm` is an Invalid Date |
| Dates.FormatDmy | src/pages/dashboard/AdminMaintenance.tsx:28 | `format(d, "dd/MM/yyyy")` is ten characters with slashes at positions 2 and 5, whose digit groups read as the day, the month and the year |
| Dates.FormatDate | src/pages/dashboard/AdminMaintenance.tsx:25-32 | a date cell is "-" exactly for an empty or unparseable string, and otherwise the day/month/year of the parsed date |
| Dates.IsoDateRoundTrip | src/pages/dashboard/AdminMaintenance.tsx:28 | parsing the ISO form `yyyy-MM-dd` of a date gives that date at midnight |
| Dates.FormatIsoDate | src/pages/dashboard/SubsHome.tsx:16-23 | a stored ISO date is shown as its own day/month/year |
| Records.Bearer | src/pages/dashboard/AdminResidents.tsx:28 | the header is "Bearer " followed by the session's access token |
| Records.DeleteUserRequest | src/pages/dashboard/AdminSubs.tsx:44-46 | deleting a user goes to "/admin/deleteUser/<id>" with the bearer header, from the residents' page as from the subcontractors' page |
| Records.NameOr | src/pages/dashboard/AdminMaintenance.tsx:106 | a found name with its fallback is the fallback exactly when nothing was found, the name is empty, or the name equals the fallback |
| Records.BuildingName | src/pages/dashboard/AdminMaintenance.tsx:106 | a building cell shows the name of the first building with that id, or the fallback when that name is empty; with no such building it is the fallback |
| Records.BlockName | src/pages/dashboard/AdminMaintenance.tsx:112 | a block cell shows the name of the first block with that id, or the fallback when that name is empty; with no such block it is the fallback |
| Records.ServiceName | src/pages/dashboard/AdminMaintenance.tsx:118 | a category cell shows the name of the first service with that id, or the fallback when that name is empty; with no such service it is the fallback |
| Records.UserName | src/pages/dashboard/AdminMaintenance.tsx:124 | a subcontractor cell shows the full name of the first user with that id, or the fallback when that name is empty; a null id, or an id no user carries, gives the fallback |
| Records.StatusLabel | src/pages/dashboard/AdminMaintenance.tsx:129 | the status label, "Pending" for an empty status, is never empty and keeps every non-empty status |
| Snapshot.ReplaceById | src/components/MaintenanceModal.tsx:143-145 | `map(m => m.id === x.id ? x : m)` keeps the length, replaces every entry with x's id and keeps the others |
| Snapshot.ReplaceOne | src/components/SignUpModal.tsx:147-149 | with unique ids the replacement changes exactly the one entry with that id and keeps the ids unique |
| Snapshot.ReplaceAbsent | src/components/SubsModal.tsx:108-110 | replacing an id that is not in the list changes nothing |
| Snapshot.AppendFresh | src/components/SubsModal.tsx:140 | appending a record with a new id keeps the ids unique and leaves the old entries in place |
| Snapshot.RemoveById | src/pages/dashboard/AdminMaintenance.tsx:71 | `filter(t => t.id !== id)` never grows the list, and changes nothing when the id is absent |
| Snapshot.RemoveMembers | src/pages/dashboard/AdminMaintenance.tsx:71 | an entry survives the removal exactly when it was listed and carries another id |
| Snapshot.RemoveHead | src/pages/dashboard/AdminMaintenance.tsx:71 | with unique ids, removing the first entry's id drops that entry only |
| Snapshot.RemoveKeep | src/pages/dashboard/AdminMaintenance.tsx:71 | a first entry with another id stays first, in front of the rest of the filtered list |
| Snapshot.RemoveOne | src/pages/dashboard/AdminResidents.tsx:59 | with unique ids, deleting the id of entry k removes exactly entry k |
| Snapshot.Approve | src/pages/dashboard/AdminResidents.tsx:32-34 | approving sets `approvedBy` on every user with that id and leaves every other user as it was |
| Snapshot.ApproveOne | src/pages/dashboard/AdminResidents.tsx:32-34 | with unique ids, approving changes exactly the one user with that id |
| AuthContext.Synced | src/contexts/AuthContext.tsx:47-53 | after the storage effect, the "auth" slot holds the session exactly when it has a truthy token; the other keys are untouched |
| AuthContext.ReloadAfterSync | src/contexts/AuthContext.tsx:41-53 | reloading after a sync restores the session when it had a token, and no session otherwise |
| AuthContext.SyncIdempotent | src/contexts/AuthContext.tsx:47-53 | running the storage effect twice for one session is running it once |
| AuthContext.Request.constructor | src/contexts/AuthContext.tsx:64 | a new request carries its url and headers, and is not yet flagged `_retry` |
| AuthContext.AuthProvider.constructor | src/contexts/AuthContext.tsx:41-53 | mounting reads the stored session, then syncs storage with it |
| AuthContext.AuthProvider.SetAuth | src/contexts/AuthContext.tsx:47-53 | a new session is followed by the storage effect, so storage agrees with memory |
| AuthContext.AuthProvider.Login | src/contexts/AuthContext.tsx:96-109 | a successful login stores the server's user and reports success; a failure keeps the session and reports the server message, else the error's own message |
| AuthContext.AuthProvider.Logout | src/contexts/AuthContext.tsx:112-115 | logout clears the session and its stored copy |
| AuthContext.AuthProvider.OnResponseError | src/contexts/AuthContext.tsx:63-69 | the interceptor refreshes exactly on a 401 for an unflagged request with a session, and then flags the request and captures the session in scope |
| AuthContext.AuthProvider.OnRefreshSettled | src/contexts/AuthContext.tsx:70-88 | a refreshed token replaces only the session's token, is stored, and goes into the replayed request's Authorization header; a failed refresh rejects with its error and keeps the session |
| AuthContext.RetryOnlyOnce | src/contexts/AuthContext.tsx:66-84 | a request answered 401 is refreshed and replayed once; a 401 on the replay is rejected |
| AuthContext.Send | src/contexts/AuthContext.tsx:61-93 | one request through the interceptor consumes answers from the server's script and never invents any |
| AuthContext.Unauthorized | src/contexts/AuthContext.tsx:66 | a server that answers n times 401 |
| AuthContext.UnguardedRefreshLoop | src/contexts/AuthContext.tsx:66-71 | as written, while the server answers 401 every answer triggers one more refresh, so n answers cause n refreshes |
| AuthContext.FlaggedNeverRefreshes | src/contexts/AuthContext.tsx:66 | a request already flagged `_retry` is never refreshed; its error passes through |
| AuthContext.RefreshAtMostOnce | src/contexts/AuthContext.tsx:66-71 | with the refresh request flagged, one user request causes at most one refresh, whatever the server answers |
| AuthContext.StopsAfterOneRefresh | src/contexts/AuthContext.tsx:66-71 | against endless 401s the flagged chain refreshes once and rejects with the 401 |
| AuthContext.RefreshThenReplay | src/contexts/AuthContext.tsx:70-84 | a 401 then a successful refresh replays the request once, with the new token in the session |
| AuthContext.RefreshFailureKeepsSession | src/contexts/AuthContext.tsx:86-88 | a failed refresh rejects with the refresh's error and leaves the session signed in |
| AuthContext.OtherErrorsPassThrough | src/contexts/AuthContext.tsx:91 | errors other than 401, and any error without a session, are rejected untouched with no refresh |
| AuthContext.DispatchThree | src/contexts/AuthContext.tsx:61-93 | on three answers, the chain rejects a non-401 untouched; after a 401 a refreshed token replays once with the new token, and a failed refresh rejects with its own error |
| AuthContext.StepsAgreeWithDispatch | src/contexts/AuthContext.tsx:63-88 | the provider's steps `OnResponseError` and `OnRefreshSettled` refresh exactly when `Dispatch` does, and end with the same session and the same replay or rejection |
| DashboardContext.RequestFor | src/contexts/DashboardContext.tsx:82-86 | the snapshot request carries the session's own id, role, building and token |
| DashboardContext.DashboardStore.constructor | src/contexts/DashboardContext.tsx:73-75 | the store starts with no snapshot and no fetch in flight |
| DashboardContext.DashboardStore.GetDashboardData | src/contexts/DashboardContext.tsx:77-86 | without a session, or while a fetch is in flight, nothing is sent; otherwise the request for the session is sent and the fetch is marked in flight |
| DashboardContext.DashboardStore.FinishFetch | src/contexts/DashboardContext.tsx:87-94 | a snapshot replaces the old one; a failure clears it and logs out; either way the fetch is no longer in flight |
| DashboardContext.DashboardStore.OnAuthChange | src/contexts/DashboardContext.tsx:97-103 | a session starts a fetch unless one is in flight; no session clears the snapshot |
| DashboardContext.DashboardStore.SetData | src/contexts/DashboardContext.tsx:61 | the pages' setter replaces the snapshot and nothing else |
| DashboardContext.OneFetchAtATime | src/contexts/DashboardContext.tsx:78-93 | a second call while a fetch is in flight sends nothing; once the first settles, a new call sends again |
| ProtectedRoute.Guard | src/components/ProtectedRoute.tsx:9-24 | no session redirects to "/"; a role outside the allowed list redirects to "/unauthorized"; otherwise the page renders (three iffs) |
| ProtectedRoute.GuardsOf | src/AppRouter.tsx:22-77 | the public pages pass no guard; every dashboard page passes the dashboard guard first, then its section's guard; other paths fall to the catch-all page |
| ProtectedRoute.Through | src/AppRouter.tsx:30-74 | a page behind nested guards is shown exactly when the session's role is allowed by every guard; with no session the first guard sends the visitor home |
| ProtectedRoute.Visit | src/AppRouter.tsx:25 | a visit shows the catch-all page exactly for paths the table does not list |
| ProtectedRoute.DashboardNeedsSession | src/AppRouter.tsx:30-36 | a dashboard page that is shown always has a session with role 1, 2 or 3 around it |
| ProtectedRoute.AnonymousSentHome | src/components/ProtectedRoute.tsx:13-16 | a visitor without a session is sent to "/" from every dashboard page, never to "/unauthorized" |
| ProtectedRoute.Landing | src/components/Sidebar.tsx:9-31 | each role's dashboard home is a path the route table lists |
| ProtectedRoute.LandingShown | src/AppRouter.tsx:38-74 | a signed-in user is shown the dashboard home of its own role, and not that of any other role |
| Login.Change | src/pages/Login.tsx:28-31 | typing changes only the named field |
| Login.CheckForm | src/pages/Login.tsx:36-45 | the form passes exactly with a well-formed e-mail and a non-empty password; the e-mail is checked first |
| Login.EmptyFormRefused | src/pages/Login.tsx:23-40 | the empty form is refused for its e-mail |
| Login.OutcomeToast | src/pages/Login.tsx:49-54 | success shows "Login successful"; a failure shows "Login failed" with the message, never an empty one |
| Login.Page.constructor | src/pages/Login.tsx:23-26 | the page starts with the empty form |
| Login.Page.HandleChange | src/pages/Login.tsx:28-31 | the form becomes `Change` of the old form |
| Login.Page.HandleSubmit | src/pages/Login.tsx:33-55 | a refused form sends nothing; otherwise the provider logs in with the form, and success goes to "/dashboard" |
| LoginModal.DestinationAsWritten | src/components/LoginModal.tsx:53-59 | as written, admins go to "/dashboard/admin", subcontractors to "/dashboard/subs", and everyone else to "/dashboard/resident" |
| LoginModal.ResidentLandsOnNotFound | src/components/LoginModal.tsx:58 | a resident sent to "/dashboard/resident" gets the catch-all page, while the residents' home would be shown |
| LoginModal.Modal.constructor | src/components/LoginModal.tsx:19-26 | the dialog starts with the empty form |
| LoginModal.Modal.HandleChange | src/components/LoginModal.tsx:28-31 | the form becomes `Change` of the old form, and the dialog stays as it was |
| LoginModal.Modal.HandleSubmit | src/components/LoginModal.tsx:33-64 | a refused form sends nothing; a successful login stores the session, closes the dialog and goes to the corrected destination, the role's own dashboard home; a failure keeps the session and the dialog as they were |
| LoginModal.DestinationShown | src/components/LoginModal.tsx:50-60 | the corrected destination is shown to every signed-in role |
| Navbar.FirstName | src/components/Navbar.tsx:17-18 | the greeting name is non-empty and has no space; without a session it is "User" |
| Navbar.FirstNameOfFullName | src/components/Navbar.tsx:17-18 | the greeting name is the first word of the user's full name |
| Navbar.LogoTargetAsWritten | src/components/Navbar.tsx:28 | as written, the logo sends a signed-out visitor to "/" and a resident to "/dashboard/resident" |
| Navbar.ResidentLogoNotFound | src/components/Navbar.tsx:28 | a signed-in resident who clicks the logo gets the catch-all page |
| Navbar.LogoTarget | src/components/Navbar.tsx:28 | the corrected logo goes to "/" when signed out, else to the role's dashboard home, a listed path |
| Navbar.LogoTargetShown | src/components/Navbar.tsx:28 | the corrected logo target is always shown, never redirected or missing |
| Navbar.CornerOf | src/components/Navbar.tsx:36-76 | the login and sign-up buttons appear exactly without a signed-in id; otherwise the greeting with the first name |
| Navbar.Bar.constructor | src/components/Navbar.tsx:13-14 | both dialogs start closed |
| Navbar.Bar.SetLoginOpen | src/components/Navbar.tsx:40 | opening or closing the login dialog leaves the sign-up dialog alone |
| Navbar.Bar.SetSignUpOpen | src/components/Navbar.tsx:41 | opening or closing the sign-up dialog leaves the login dialog alone |
| Navbar.Bar.HandleLogout | src/components/Navbar.tsx:20-23 | logging out clears the session and its stored copy, shows "Logged out", and the bar goes back to the guest buttons |
| Sidebar.Items | src/components/Sidebar.tsx:9-33 | admins get Dashboard, Residents, Subcontractors and Maintenance, in that order, with their admin paths; other roles get the one "Dashboard" item pointing to the role's home |
| Sidebar.Menu | src/components/Sidebar.tsx:40 | the menu is the item list for the session's role |
| Sidebar.ItemsShown | src/components/Sidebar.tsx:9-33 | every sidebar link of a signed-in role leads to a page that role is shown |
| SubsHome.AssignedTasks | src/pages/dashboard/SubsHome.tsx:26-29 | the table lists exactly the snapshot's tasks whose subcontractor is the signed-in user |
| SubsHome.NoSessionNoTasks | src/pages/dashboard/SubsHome.tsx:27 | without a session no task is listed |
| SubsHome.EmptyNotice | src/pages/dashboard/SubsHome.tsx:79-80 | "No maintenance tasks assigned." shows exactly when no task is assigned to the user |
| SubsHome.TaskRow | src/pages/dashboard/SubsHome.tsx:31-70 | each cell is the looked-up name or "Unknown"; dates are "-" exactly when missing or unparseable |
| SubsHome.DueDateShown | src/pages/dashboard/SubsHome.tsx:62 | a stored ISO due date is shown as its own day/month/year |
| OverviewModal.Description | src/components/OverviewModal.tsx:54 | the caption reads "1 maintenance task found" exactly for one task and "<n> maintenance tasks found" otherwise, its count read back by `Number` as n |
| OverviewModal.BadgeOf | src/components/OverviewModal.tsx:81-86 | green exactly for "Completed", yellow exactly for "In Progress", red otherwise |
| OverviewModal.BadgeMatchesLabel | src/components/OverviewModal.tsx:81-88 | the badge colour agrees with the label shown, so an empty status, shown as Pending, is red |
| OverviewModal.TaskItem | src/components/OverviewModal.tsx:62-94 | each line shows the task's looked-up building, block and subcontractor, or "Unknown", its status label and badge |
| OverviewModal.BodyOf | src/components/OverviewModal.tsx:58-98 | the empty message shows exactly for no tasks; otherwise there is one item per task, in order |
| ResidentsHome.BlockTasks | src/pages/dashboard/ResidentsHome.tsx:41-43 | the page works from exactly the snapshot's tasks of the resident's block |
| ResidentsHome.BlockHeading | src/pages/dashboard/ResidentsHome.tsx:92 | the heading is the name of a block with the session's block id, and is present exactly when one exists |
| ResidentsHome.PastDue | src/pages/dashboard/ResidentsHome.tsx:47-49 | the past-due card lists only dated tasks that are not completed |
| ResidentsHome.DueThisMonth | src/pages/dashboard/ResidentsHome.tsx:50-52 | the this-month card lists only dated tasks, never more than the block has |
| ResidentsHome.DueThisMonthMembers | src/pages/dashboard/ResidentsHome.tsx:50-52 | a task is due this month exactly when it has a due date in the year and month of now, whatever its status |
| ResidentsHome.DueNextMonth | src/pages/dashboard/ResidentsHome.tsx:53-55 | the next-month card lists only dated tasks |
| ResidentsHome.CardsStayInBlock | src/pages/dashboard/ResidentsHome.tsx:41-55 | every card lists only tasks of the resident's block |
| ResidentsHome.PastDueMembers | src/pages/dashboard/ResidentsHome.tsx:47-49 | a task is past due exactly when it has a due date before now and is not completed |
| ResidentsHome.NextMonthIsFollowingMonth | src/pages/dashboard/ResidentsHome.tsx:45 | "due next month" means due in the calendar month after now's, whatever now's day |
| ResidentsHome.DecemberRollsOver | src/pages/dashboard/ResidentsHome.tsx:45 | in December, "due next month" means January of the next year |
| ResidentsHome.PastDueCanBeDueThisMonth | src/pages/dashboard/ResidentsHome.tsx:47-52 | the cards overlap: an open task due on the first of the month is both past due and due this month |
| ResidentsHome.Stack | src/pages/dashboard/ResidentsHome.tsx:79-85 | a task goes to In Progress or Completed exactly for those statuses, and to Pending otherwise |
| ResidentsHome.Bump | src/pages/dashboard/ResidentsHome.tsx:82-84 | counting a task adds one to its bar |
| ResidentsHome.ChartMonth | src/pages/dashboard/ResidentsHome.tsx:74-78 | a task is counted exactly when it has a due date in the current year, in that date's month |
| ResidentsHome.Tally | src/pages/dashboard/ResidentsHome.tsx:66-86 | the chart always has twelve bars |
| ResidentsHome.BuildChart | src/pages/dashboard/ResidentsHome.tsx:65-86 | the loop over the tasks builds exactly the chart `Tally` specifies |
| ResidentsHome.EmptyChart | src/pages/dashboard/ResidentsHome.tsx:66-71 | before any task is counted, all twelve bars are empty |
| ResidentsHome.UncountedLeavesChart | src/pages/dashboard/ResidentsHome.tsx:74-76 | a task without a due date in the current year leaves the chart as it was |
| ResidentsHome.ChartCell | src/pages/dashboard/ResidentsHome.tsx:73-86 | each stack of each bar counts exactly the tasks due in that month of the year with that status |
| ResidentsHome.CellStep | src/pages/dashboard/ResidentsHome.tsx:73-86 | counting one more task adds one to a stack of a bar exactly when the task is due in that month of the year with that status |
| ResidentsHome.BumpCell | src/pages/dashboard/ResidentsHome.tsx:73-86 | bumping a status stack adds one to that stack and leaves the other two |
| ResidentsHome.ChartTotal | src/pages/dashboard/ResidentsHome.tsx:73-86 | the bars add up to the number of tasks with a due date in the current year |
| ResidentsHome.HomePage.constructor | src/pages/dashboard/ResidentsHome.tsx:37-39 | the overview dialog starts closed, with no title and no tasks |
| ResidentsHome.HomePage.HandleCardClick | src/pages/dashboard/ResidentsHome.tsx:57-62 | a card with no tasks does nothing; otherwise the dialog opens with that card's title and tasks |
| MaintenanceModal.SessionBuilding | src/components/MaintenanceModal.tsx:39 | the form's building is the session's building, or 0 without one |
| MaintenanceModal.InitialForm | src/components/MaintenanceModal.tsx:37-46 | the blank form is empty with status "Pending" and the session's building |
| MaintenanceModal.EditForm | src/components/MaintenanceModal.tsx:55-65 | editing copies the task's fields, with "" for a missing subcontractor or comment and the session's building |
| MaintenanceModal.SeededForm | src/components/MaintenanceModal.tsx:51-73 | a closed dialog or a new task gets the blank form; an open dialog editing a task gets that task's form |
| MaintenanceModal.Change | src/components/MaintenanceModal.tsx:75-88 | a number input stores "" or its number, any other input its raw text; only the named field changes |
| MaintenanceModal.SelectKeepsText | src/components/MaintenanceModal.tsx:81-86 | a select is not a number input, so choosing a block stores the option's text, which `Number` still reads as the id |
| MaintenanceModal.FilteredSubs | src/components/MaintenanceModal.tsx:34-93 | the subcontractor select offers exactly the subcontractors whose service is the chosen category |
| MaintenanceModal.BlockChoices | src/components/MaintenanceModal.tsx:231 | the block select offers exactly the blocks of the form's building |
| MaintenanceModal.CheckForm | src/components/MaintenanceModal.tsx:98-113 | the form passes exactly with a non-blank task, a block, a category and a known status; the first failing check, in source order, is reported |
| MaintenanceModal.BlankTaskRefused | src/components/MaintenanceModal.tsx:98-101 | a task of only white space is refused |
| MaintenanceModal.NewFormRefused | src/components/MaintenanceModal.tsx:37-101 | the blank form is refused for its missing task |
| MaintenanceModal.SaveRequestFor | src/components/MaintenanceModal.tsx:117-135 | editing puts the form to "/admin/updateMaintenance/<id>", adding posts it to "/admin/addMaintenance", always with the bearer header |
| MaintenanceModal.SavedTasks | src/components/MaintenanceModal.tsx:139-155 | an update replaces the tasks with the saved id; an add appends the saved task |
| MaintenanceModal.SavedTasksOnly | src/components/MaintenanceModal.tsx:139-155 | with unique ids an update changes exactly the edited task, and adding a task with a new id keeps the ids unique |
| MaintenanceModal.Modal.constructor | src/components/MaintenanceModal.tsx:48 | the dialog starts closed with the blank form |
| MaintenanceModal.Modal.Seed | src/components/MaintenanceModal.tsx:51-73 | the seeding effect sets the form to `SeededForm` |
| MaintenanceModal.Modal.HandleChange | src/components/MaintenanceModal.tsx:75-88 | the form becomes `Change` of the old form |
| MaintenanceModal.Modal.HandleSubmit | src/components/MaintenanceModal.tsx:95-167 | a refused form sends nothing; a save patches a loaded snapshot, resets the form and closes; an error shows the server's message or a generic one and changes nothing |
| SignUpModal.EditForm | src/components/SignUpModal.tsx:67-76 | editing copies the user's name, e-mail and unit, blanks both passwords, and keeps building and block only when non-zero |
| SignUpModal.SeededForm | src/components/SignUpModal.tsx:66-89 | editing gets the user's form, and anything else the blank form |
| SignUpModal.Change | src/components/SignUpModal.tsx:91-99 | the building and block slots store "" or a number, the others the raw text; only the named field changes |
| SignUpModal.BlockOptions | src/components/SignUpModal.tsx:253 | the block select offers exactly the blocks of the chosen building |
| SignUpModal.BlockSelectShown | src/components/SignUpModal.tsx:240 | the block select shows exactly when a building is chosen that has blocks |
| SignUpModal.CheckForm | src/components/SignUpModal.tsx:104-117 | the form passes exactly with name, e-mail and unit filled, a well-formed e-mail, and, when creating, matching non-empty passwords |
| SignUpModal.PayloadOf | src/components/SignUpModal.tsx:119-129 | the body sends `Number` of the building, the block only when truthy, and the password only when non-empty |
| SignUpModal.BlankBuildingSentAsZero | src/components/SignUpModal.tsx:122 | an unchosen building is sent as 0 |
| SignUpModal.EditSendsNoPassword | src/components/SignUpModal.tsx:71-129 | editing a user sends no password unless one is typed |
| SignUpModal.RequestFor | src/components/SignUpModal.tsx:132-164 | editing puts to "/admin/updateUser/<id>" with the bearer header; creating posts to "/register/user" |
| SignUpModal.Modal.constructor | src/components/SignUpModal.tsx:32-43 | the dialog starts closed with the blank form and no buildings |
| SignUpModal.Modal.Seed | src/components/SignUpModal.tsx:66-89 | the seeding effect sets the form to `SeededForm` |
| SignUpModal.Modal.LoadBuildings | src/components/SignUpModal.tsx:46-63 | loaded buildings and blocks replace the lists; a failure shows "Failed to load buildings" |
| SignUpModal.Modal.HandleChange | src/components/SignUpModal.tsx:91-99 | the form becomes `Change` of the old form |
| SignUpModal.Modal.HandleSubmit | src/components/SignUpModal.tsx:101-178 | a refused form sends nothing; a successful update patches the user in the snapshot; any answer closes the dialog; an error shows its message |
| SubsModal.EditForm | src/components/SubsModal.tsx:44-52 | editing copies the subcontractor's fields with "" for the missing ones, keeps the service only when non-zero, and blanks the password |
| SubsModal.SeededForm | src/components/SubsModal.tsx:43-56 | editing gets the subcontractor's form, and anything else the blank form |
| SubsModal.Change | src/components/SubsModal.tsx:58-64 | the service slot stores "" or a number, the others the raw text; only the named field changes |
| SubsModal.CheckForm | src/components/SubsModal.tsx:69-83 | the form passes exactly with a well-formed e-mail, a service, and a password when adding; a failure names the first failing check |
| SubsModal.NoServiceRefused | src/components/SubsModal.tsx:50-77 | a subcontractor without a service cannot be saved until a category is chosen |
| SubsModal.UpdateBodyOf | src/components/SubsModal.tsx:90-97 | the update sends the form's fields, and the password only when non-empty |
| SubsModal.AddBodyOf | src/components/SubsModal.tsx:126-130 | the add sends the whole form plus the admin's id and building |
| SubsModal.RequestFor | src/components/SubsModal.tsx:86-132 | editing puts to "/admin/updateSub/<id>", adding posts to "/admin/addSub", both with the bearer header |
| SubsModal.SavedUsers | src/components/SubsModal.tsx:105-141 | an update replaces the users with the result's id; an add appends the result |
| SubsModal.SavedUsersOnly | src/components/SubsModal.tsx:105-141 | with unique ids an update changes exactly the edited user, and adding a new id keeps the ids unique |
| SubsModal.Modal.constructor | src/components/SubsModal.tsx:40 | the dialog starts closed with the blank form |
| SubsModal.Modal.Seed | src/components/SubsModal.tsx:43-56 | the seeding effect sets the form to `SeededForm` |
| SubsModal.Modal.HandleChange | src/components/SubsModal.tsx:58-64 | the form becomes `Change` of the old form |
| SubsModal.Modal.HandleSubmit | src/components/SubsModal.tsx:66-157 | a refused form sends nothing; `success` patches a loaded snapshot and closes; a refusal or an error shows its message and changes nothing |
| AdminMaintenance.LexLeTotal | src/pages/dashboard/AdminMaintenance.tsx:40 | the default sort order compares any two strings |
| AdminMaintenance.LexLeAntisymmetric | src/pages/dashboard/AdminMaintenance.tsx:40 | two strings that sort before each other are equal |
| AdminMaintenance.LexLeTransitive | src/pages/dashboard/AdminMaintenance.tsx:40 | the default sort order is transitive |
| AdminMaintenance.Distinct | src/pages/dashboard/AdminMaintenance.tsx:34-39 | `Array.from(new Set(xs))` has no duplicates and the same members as xs |
| AdminMaintenance.Sort | src/pages/dashboard/AdminMaintenance.tsx:40 | `sort()` returns a sorted permutation of its input |
| AdminMaintenance.StatusLabels | src/pages/dashboard/AdminMaintenance.tsx:37 | each task maps to its status label, in order |
| AdminMaintenance.AllStatuses | src/pages/dashboard/AdminMaintenance.tsx:34-40 | the status options are sorted and without duplicates, hold exactly the labels of the tasks, and never the empty string |
| AdminMaintenance.SortKeepsDistinct | src/pages/dashboard/AdminMaintenance.tsx:40 | sorting a duplicate-free list keeps it duplicate-free with the same members |
| AdminMaintenance.FilteredTasks | src/pages/dashboard/AdminMaintenance.tsx:42-59 | the table lists exactly the tasks that match the search, the category, the block and the status |
| AdminMaintenance.BlankSearchShowsAll | src/pages/dashboard/AdminMaintenance.tsx:43-57 | a blank search with every select on "all" lists every task, in order |
| AdminMaintenance.SearchIgnoresCase | src/pages/dashboard/AdminMaintenance.tsx:43 | the search ignores letter case in the term |
| AdminMaintenance.EmptyStatusIsPending | src/pages/dashboard/AdminMaintenance.tsx:45-55 | a task with an empty status passes the "Pending" status filter exactly as it passes "all" |
| AdminMaintenance.TaskRow | src/pages/dashboard/AdminMaintenance.tsx:96-139 | each cell is the looked-up name or its fallback; the subcontractor is "None" unless such a user exists; dates are "-" exactly when missing or unparseable |
| AdminMaintenance.Page.constructor | src/pages/dashboard/AdminMaintenance.tsx:18-19 | the dialog starts closed with no task being edited |
| AdminMaintenance.Page.HandleAdd | src/pages/dashboard/AdminMaintenance.tsx:159 | "Add New Maintenance Task" opens the dialog and keeps the task being edited |
| AdminMaintenance.Page.HandleEdit | src/pages/dashboard/AdminMaintenance.tsx:86-89 | "Update" opens the dialog on that task |
| AdminMaintenance.Page.HandleModalClose | src/pages/dashboard/AdminMaintenance.tsx:91-94 | closing forgets the task being edited; opening keeps it |
| AdminMaintenance.Page.HandleDelete | src/pages/dashboard/AdminMaintenance.tsx:61-84 | a declined confirmation sends nothing; `success` removes the task from a loaded snapshot; a refusal or an error raises an alert and changes nothing |
| AdminResidents.Residents | src/pages/dashboard/AdminResidents.tsx:18 | the page works from exactly the users with role 1 |
| AdminResidents.FilteredResidents | src/pages/dashboard/AdminResidents.tsx:78-92 | the table lists exactly the residents that match the search and the block select |
| AdminResidents.BlankSearchShowsAll | src/pages/dashboard/AdminResidents.tsx:79-90 | a blank search with "All Blocks" lists every resident, in order |
| AdminResidents.SearchIgnoresCase | src/pages/dashboard/AdminResidents.tsx:79 | the search ignores letter case in the term |
| AdminResidents.PickBlock | src/pages/dashboard/AdminResidents.tsx:87-88 | picking a block lists exactly the matching residents of that block |
| AdminResidents.ApprovalCell | src/pages/dashboard/AdminResidents.tsx:117-129 | "Yes" exactly for a truthy `approvedBy`; otherwise the button, disabled and reading "Approving..." exactly while that resident is being approved |
| AdminResidents.ResidentRow | src/pages/dashboard/AdminResidents.tsx:95-114 | the block is the looked-up name or "Unknown"; an empty unit shows "N/A" |
| AdminResidents.ApprovedShowsYes | src/pages/dashboard/AdminResidents.tsx:31-35 | after approval by an admin with a non-zero id, that resident's row shows "Yes" and the other rows are unchanged |
| AdminResidents.DeletedResidentGone | src/pages/dashboard/AdminResidents.tsx:59 | after the delete no user carries that id, and every other user is still listed |
| AdminResidents.Page.constructor | src/pages/dashboard/AdminResidents.tsx:12-16 | nothing is being approved or edited, and the dialog is closed |
| AdminResidents.Page.StartApprove | src/pages/dashboard/AdminResidents.tsx:22-29 | "Approve" marks the resident as being approved and posts the approval |
| AdminResidents.Page.FinishApprove | src/pages/dashboard/AdminResidents.tsx:31-45 | a resolved approval marks the user approved by the admin in a loaded snapshot; an error keeps the snapshot and reports; the waiting state always ends |
| AdminResidents.Page.HandleDelete | src/pages/dashboard/AdminResidents.tsx:49-69 | a declined confirmation sends nothing; a resolved delete removes the user from a loaded snapshot; an error keeps it and reports |
| AdminResidents.Page.HandleEdit | src/pages/dashboard/AdminResidents.tsx:72-75 | "Update" opens the dialog on that resident |
| AdminResidents.Page.HandleOpenChange | src/pages/dashboard/AdminResidents.tsx:231-234 | closing forgets the resident being edited; opening keeps it |
| AdminSubs.Subcontractors | src/pages/dashboard/AdminSubs.tsx:18 | the page works from exactly the users with role 2 |
| AdminSubs.FilteredSubs | src/pages/dashboard/AdminSubs.tsx:22-37 | the table lists exactly the subcontractors that match the search and the category select |
| AdminSubs.BlankSearchShowsAll | src/pages/dashboard/AdminSubs.tsx:23-35 | a blank search with "All Categories" lists every subcontractor, in order |
| AdminSubs.SearchIgnoresCase | src/pages/dashboard/AdminSubs.tsx:23 | the search ignores letter case in the term |
| AdminSubs.PickCategory | src/pages/dashboard/AdminSubs.tsx:32-33 | picking a category lists exactly the matching subcontractors offering that service |
| AdminSubs.SubRow | src/pages/dashboard/AdminSubs.tsx:81-107 | company and phone show "N/A" when missing or empty; the category is the looked-up service or "Unknown" |
| AdminSubs.UnlistedServiceIsUnknown | src/pages/dashboard/AdminSubs.tsx:102-105 | a service not among the loaded services shows "Unknown" |
| AdminSubs.Page.constructor | src/pages/dashboard/AdminSubs.tsx:15-16 | the dialog starts closed with no subcontractor being edited |
| AdminSubs.Page.HandleAdd | src/pages/dashboard/AdminSubs.tsx:133 | "Add New Subcontractor" opens the dialog and keeps the subcontractor being edited |
| AdminSubs.Page.HandleEdit | src/pages/dashboard/AdminSubs.tsx:69-72 | "Update" opens the dialog on that subcontractor |
| AdminSubs.Page.HandleModalClose | src/pages/dashboard/AdminSubs.tsx:75-78 | closing forgets the subcontractor being edited; opening keeps it |
| AdminSubs.Page.HandleDelete | src/pages/dashboard/AdminSubs.tsx:40-66 | a declined confirmation sends nothing; `success` removes the user from a loaded snapshot and confirms; a refusal or an error raises an alert and changes nothing |
| Signup.BuildingBlocks | src/pages/Signup.tsx:104 | the strict test keeps exactly the blocks whose building equals the chosen one, and none for a blank choice |
| Signup.BlockChoices | src/pages/Signup.tsx:241 | the block select offers exactly the blocks whose building equals `Number` of the choice |
| Signup.ChoicesMatchTest | src/pages/Signup.tsx:222-241 | for a chosen building, the loose options and the strict visibility test pick the same blocks in the same order |
| Signup.PayloadOf | src/pages/Signup.tsx:95-106 | the body sends the raw building slot, and the block exactly when the building has blocks |
| Signup.BlockSentIffShown | src/pages/Signup.tsx:104-222 | the block is sent exactly when the page showed the block select, and the confirmation field is never sent |
| Signup.ChosenBuildingWithBlocks | src/pages/Signup.tsx:104-106 | a building with a block in the list has the chosen block sent |
| Signup.FailureText | src/pages/Signup.tsx:131-134 | the failure text is the server's message, else the error's own, else the generic text; never empty |
| Signup.Page.constructor | src/pages/Signup.tsx:38-50 | the page starts with the blank form and no buildings |
| Signup.Page.LoadBuildings | src/pages/Signup.tsx:52-69 | loaded buildings and blocks replace the lists; a failure shows "Failed to load buildings" |
| Signup.Page.HandleChange | src/pages/Signup.tsx:71-81 | the form becomes `Change` of the old form |
| Signup.Page.HandleSubmit | src/pages/Signup.tsx:83-139 | a malformed e-mail sends nothing; otherwise the payload is posted; success resets the form and goes to "/"; an error reports and keeps the form |

## Left out

- Numbers: JavaScript's `Number` on decimals, exponents, hexadecimal and surrounding white space is not modelled. Only optional-minus digit strings are read; everything else is NaN.
- Dates: time zones are not modelled. A zone designator (`Z` or an offset) moves the parsed instant by the browser's own offset, so the model refuses such strings, where the page shows a date.
- ParseIso: `parseISO`'s other shapes are refused as Invalid Dates, where date-fns accepts them: compact forms without `-` or `:`, week and ordinal dates, expanded and two-digit years, fractions of an hour or a minute, and the hour 24. A fraction of a second is accepted but not read, because date-fns reads it through floating point. `new Date()` is the `Moment` parameter `now`.
- Lower-casing is ASCII only. `toLowerCase` on other Unicode letters is not modelled.
- The session is stored as a record. The JSON round trip through `localStorage` is assumed faithful, and a malformed stored value is not modelled.
- The interceptor is registered again on every render of the provider, and each copy closes over the session of its own render. The model has a single interceptor that reads the current session. It does not capture that the earliest registered copy that holds a session handles a 401. That copy writes back `{ ...auth, accessToken }` from its own render, which can be a stale session: after a logout and a login as another user, the previous user's record comes back with the new token. Nor does it capture that a rejection passes on to the later copies, which may start refreshes of their own.
- LoginModal.Modal.HandleSubmit: after a successful login it navigates to the corrected destination `Landing`, not to the "/dashboard/resident" that LoginModal.tsx:58 writes for residents. `DestinationAsWritten` and `ResidentLandsOnNotFound` model that line as written, as the Findings table records.
- Asynchrony is not modelled: the 1500 ms delays before closing or navigating, and the interleaving of two handlers in flight. Each handler runs to completion with its reply given.
- Browser form validation (`required` attributes) is not modelled. The handlers' own checks are.
- Styling, layout, icons, the chart's locale month labels and the tooltip are not modelled. So is the DataTable library's pagination and column sorting.
- The console logging is left out, as is `src/lib/api.ts`, which the pages do not use.
- React Router is not modelled beyond the route table: no `replace` history and no hover labels. NavLink's active styling is left out too.
- Computed keys: a change handler called with a name that is not a form field adds that key in the source. The model keeps the form unchanged.
- Server replies are not checked against their TypeScript types.
- ResidentsHome.Tally: it states only that there are twelve bars. What each bar counts is stated by `ChartCell` and `ChartTotal`.

## Findings

| source | as written | input that shows it | evidently intended | confidence | as-written member | corrected member |
|---|---|---|---|---|---|---|
| src/contexts/AuthContext.tsx:66-71 | the refresh request `GET /auth/refresh` goes through the same interceptor without `_retry`, so a 401 on it starts another refresh | a signed-in session whose refresh token has expired: the server answers every call with 401 | at most one refresh per user request; a 401 on the refresh itself is rejected | not executed | AuthContext.UnguardedRefreshLoop | AuthContext.RefreshAtMostOnce |
| src/components/LoginModal.tsx:58 | a resident is sent to "/dashboard/resident" after logging in | a login answered with roleCode 1: the route table has only "/dashboard/residents", so the catch-all page is shown | the residents' dashboard home "/dashboard/residents" | not executed | LoginModal.ResidentLandsOnNotFound | LoginModal.DestinationShown |
| src/components/Navbar.tsx:28 | the logo of a signed-in resident links to "/dashboard/resident" | a session with a non-zero id and roleCode 1 clicks the logo: the catch-all page is shown | the residents' dashboard home "/dashboard/residents" | not executed | Navbar.ResidentLogoNotFound | Navbar.LogoTargetShown |
