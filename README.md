# Assessment portal: the decision layer of its six pages

The assessment portal is a Next.js front end with three dashboards (admin, examiner,
candidate), a sign-in page, a user-management page and an assessment-creation page.
Almost all of it is markup. This project models the small decision layer inside those
six page components and proves properties of it:

- the route guard each protected page runs on mount;
- the sign-in and forced-password-reset handlers with their role dispatch;
- the list derivations: role partition, status filter, "first four unless expanded",
  result statistics, score bands and difficulty badges;
- the create and delete handlers with their confirm → call → refresh → report order;
- the assessment form's selection toggle, its submit-enabled predicate and its multipart fields;
- the rows and file name of the full-report spreadsheet.

Every backend call is a parameter. A `Reply<B>` is either `Reply(ok, body)` or
`Thrown(message)`, where `Thrown` is a rejected fetch. A `body` is either `Parsed(b)` or
`Unparsable(message)`, where `Unparsable` is a `res.json()` that threw. Those two
messages reach the handlers' `catch` blocks as they do in the code. A user's answer to a
`confirm` dialog is a boolean parameter. The browser is the class `Portal.Browser`:
the cached `user` entry of local storage, the list of `router.push` targets and the list
of `alert` texts. Page state is one class per page whose fields are the component's state
variables. Each page handler is a method whose `modifies` frame names the fields it may set
(plus the browser where it navigates, stores or alerts); the `Browser` methods change only
the browser. The three submit handlers that keep a form in a loading state while they wait
(sign-in and password reset on the sign-in page, and the assessment-creation submit) are
split into two methods: the part up to the request (returning what is sent), and the part
that receives the reply. The other handlers (user create and delete, assessment delete, the
fetches) are one method each that takes every reply it awaits as a parameter. The
`useEffect`s that recompute visible lists are kept as invariants (`Valid()`) that every
method re-establishes; the creation page's `Valid()` keeps the candidate selection free of
repeats.

JavaScript truthiness is modelled where the code relies on it. `x || 'fallback'` treats
a missing field and `""` as absent (`OrElse`). `n || d` treats a missing field and `0`
as absent (`NumOrElse`). `list || []` keeps any present list, even an empty one (`OrEmpty`).

A user object's `role` text is read by `RoleOf` into a `UserRole`. The three known texts become
`Candidate`, `Examiner` and `Admin`, and any other text becomes `OtherRole(text)`, which never
spells a known role. So a guard's set membership is exactly the code's `===` comparison on the text.

The model keeps two quirks of the code as they are:

- an admin finishing the first-login reset is sent to `/examiner/dashboard`, whose guard
  sends them home (`Login.ResetRouteRejectsOnlyAdmin`);
- the user-management page admits examiners as well as admins (`Portal.RolesAt`).

It also records one more: a failed results fetch in the reports modal leaves the previous
user's results in place, so they show (and export) under the newly selected user.
The admin dashboard's "Total" figure is `assessments.length` itself, so it needs no separate member.

## Model

| member | source | states |
|---|---|---|
| `Portal.RoleOf` | app/admin/page.tsx:26 | reading the role text: each of `candidate`, `examiner`, `admin` gives its role exactly, any other text an other role carrying it, so role membership is the code's `===` on the text |
| `Portal.RoleName` | app/page.tsx:55-62 | writing a role back gives a text that reads as the same role |
| `Portal.RolesAt` | app/admin/users/page.tsx:44 | admins are admitted on the users, admin and creation pages; examiners on the users page and their dashboard; candidates only on theirs; no other role anywhere |
| `Portal.Guard` | app/admin/users/page.tsx:36-51 | renders (with the cached user) iff a user is cached and its role is in the page's set; otherwise redirects to `/` |
| `Portal.GuardMonotone` | app/admin/users/page.tsx:44 | a page admitting more roles renders for everyone a narrower one renders for |
| `Portal.Browser.HandleLogout` | app/admin/page.tsx:80-83 | removes the cached user and navigates to `/` (same handler on both other dashboards) |
| `Portal.Filter` | app/admin/users/page.tsx:191-193 | every element kept passes the filter callback; the result is no longer than the input |
| `Portal.FilterCounts` | app/examiner/create/page.tsx:118 | each passing element is kept as often as it occurs, each other dropped entirely |
| `Portal.FilterMembers` | app/admin/users/page.tsx:191-193 | an element is in the filtered list iff it is in the list and passes |
| `Portal.FilterKeepsOrder` | app/candidate/dashboard/page.tsx:86 | the filtered list is a subsequence of the input (original relative order) |
| `Portal.FilterKeepsDistinct` | app/examiner/create/page.tsx:118 | filtering a list without repeats gives one without repeats |
| `Portal.FilterAllPass` | app/examiner/create/page.tsx:118 | filtering a list all of whose elements pass returns it unchanged |
| `Portal.FilterAppend` | app/examiner/create/page.tsx:118-119 | filtering distributes over concatenation |
| `Portal.Visible` | app/examiner/dashboard/page.tsx:75-78 | the view is a prefix of the list: all of it when expanded, else the first min(4, n) |
| `Portal.ToggleChangesView` | app/examiner/dashboard/page.tsx:252-265 | the View More toggle is shown (more than 4 items) exactly when flipping it changes the view |
| `Portal.Round` | app/examiner/dashboard/page.tsx:191 | `Math.round` on an idealised real: the integer within [-1/2, +1/2) of x |
| `Portal.OrElse` | app/page.tsx:42 | JavaScript's logical or with a fallback: a present, non-empty text is kept, otherwise the fallback |
| `Portal.NumOrElse` | app/admin/page.tsx:210 | logical or on a number: a present non-zero number is kept, otherwise the fallback |
| `Portal.OrEmpty` | app/admin/page.tsx:37 | logical or with `[]`: a present list (even empty) is kept, a missing one becomes `[]` |
| `Portal.Fetched` | app/admin/page.tsx:33-41 | a page's list after its fetch (users, candidates, assigned assessments, results, all assessments): replaced by the body's list, or `[]` when it is missing, only on an ok reply whose body decodes; otherwise kept |
| `Portal.Underscored` | app/admin/users/page.tsx:172 | replacing whitespace runs leaves no whitespace at all |
| `Portal.UnderscoredKeepsPlainText` | app/admin/users/page.tsx:172 | a name without whitespace is left unchanged |
| `Portal.UnderscoredFixesExactlyPlainText` | app/admin/users/page.tsx:172 | the replacement changes a name iff it contains whitespace, and applying it twice equals applying it once |
| `Portal.UnderscoredRun` | app/admin/users/page.tsx:172 | a whitespace run of any length between plain text and a non-space becomes exactly one `_` |
| `Login.SignInRoute` | app/page.tsx:55-62 | candidate → `/candidate/dashboard`, admin → `/admin`, any other role → `/examiner/dashboard` |
| `Login.ResetRoute` | app/page.tsx:98-103 | candidate → `/candidate/dashboard`, every other role (admin included) → `/examiner/dashboard` |
| `Login.SignInLandsOnAdmittingPage` | app/page.tsx:55-62 | after sign-in, each known role lands on a page whose guard admits it |
| `Login.ResetRouteRejectsOnlyAdmin` | app/page.tsx:99-102 | the reset dispatch differs from sign-in only for admins, whom its target page redirects home |
| `Login.LoginPage.constructor` | app/page.tsx:12-25 | empty form, no error, not loading, modal closed, no kept user |
| `Login.LoginPage.HandleSubmit` | app/page.tsx:27-37 | clears the error, sets loading, posts the credentials |
| `Login.LoginPage.HandleSubmitReply` | app/page.tsx:39-67 | failure: error is the thrown message or `data.error` or `'Authentication failed'`, nothing stored, no navigation; first login: keeps the user, opens the modal, stores nothing; else stores the user and dispatches by role; loading false in every case |
| `Login.LoginPage.HandleResetPassword` | app/page.tsx:70-87 | mismatched passwords: `'Passwords do not match'`, nothing sent, loading untouched; else loading set and the reset posted with the kept user's id and the sign-in password |
| `Login.LoginPage.HandleResetReply` | app/page.tsx:89-108 | success stores the kept user with the first-login flag cleared and dispatches by reset route; failure sets `data.error` or `'Failed to reset password'` (or the thrown message) and stores nothing; loading false |
| `ManageUsers.WithRole` | app/admin/users/page.tsx:191-193 | a user is in a group iff it is in the list and has that role |
| `ManageUsers.PartitionDisjoint` | app/admin/users/page.tsx:191-193 | no user is in two groups |
| `ManageUsers.PartitionKeepsOrder` | app/admin/users/page.tsx:191-193 | each group keeps the list's relative order |
| `ManageUsers.PartitionComplete` | app/admin/users/page.tsx:12-17 | with every role one of the three, the groups' multisets sum to the list's and their lengths to its length |
| `ManageUsers.Highest` | app/admin/users/page.tsx:556 | at least every percentage and equal to one of them |
| `ManageUsers.StatsOf` | app/admin/users/page.tsx:545-556 | count = number of results; average within 1/2 of the mean percentage; highest is the maximum |
| `ManageUsers.TotalBetween` | app/admin/users/page.tsx:550 | the percentage sum lies between n·lo and n·hi when each percentage does |
| `ManageUsers.AverageBetween` | app/admin/users/page.tsx:550 | the rounded average lies within any bounds of the percentages and never exceeds the highest |
| `ManageUsers.BandOf` | app/admin/users/page.tsx:582-584 | green iff ≥ 70, blue iff 40 ≤ p < 70, red iff < 40 |
| `ManageUsers.ReportFileName` | app/admin/users/page.tsx:172 | the file name is the name with each whitespace run made one `_` (`Portal.Underscored`, pinned by `Portal.UnderscoredRun`), then `_Full_Report.xlsx`; it has no whitespace and is name + suffix for a name without whitespace |
| `ManageUsers.HeaderRows` | app/admin/users/page.tsx:148-156 | seven rows: title, name, email, `Total Assessments` with the count, the generation time (`now`), a blank row, and the six column labels |
| `ManageUsers.ResultRow` | app/admin/users/page.tsx:158-166 | six cells, as wide as the header; the percentage cell is the number followed by `%`; the attempt cell is the attempt number, or 1 when missing or zero |
| `ManageUsers.CreateFailure` | app/admin/users/page.tsx:77-91 | the alert of a failed create: the thrown message, else `data.error`, else `'Failed to create user'`; never empty for a decoded body |
| `ManageUsers.DeleteFailure` | app/admin/users/page.tsx:113-125 | the message of a failed delete: the thrown message, else `data.error`, else `'Failed to delete user'`; never empty for a decoded body |
| `ManageUsers.MessageText` | app/admin/users/page.tsx:118-119 | `alert(data.message)` shows the message, or `undefined` when it is missing |
| `ManageUsers.ManageUsersPage.constructor` | app/admin/users/page.tsx:22-34 | initial state: loading, empty list, blank form with role examiner, modals closed |
| `ManageUsers.ManageUsersPage.Mount` | app/admin/users/page.tsx:36-51 | only a cached examiner or admin is kept and the users fetched; otherwise only a redirect to `/` |
| `ManageUsers.ManageUsersPage.FetchUsers` | app/admin/users/page.tsx:53-65 | the list is replaced (by `data.users` or `[]`) only on an ok, decodable reply; loading false after every outcome |
| `ManageUsers.ManageUsersPage.HandleCreateUser` | app/admin/users/page.tsx:67-93 | failure alerts `data.error` or `'Failed to create user'` and changes nothing else; success resets the form, closes the modal, refreshes the list and alerts success |
| `ManageUsers.ManageUsersPage.HandleDeleteUser` | app/admin/users/page.tsx:95-127 | no request without a current user or confirmation; failure alerts `'Error: '` + message and keeps the list; success alerts the backend message and refreshes |
| `ManageUsers.ManageUsersPage.HandleViewReports` | app/admin/users/page.tsx:128-143 | selects the user and opens the modal; results replaced only on an ok reply |
| `ManageUsers.ManageUsersPage.DownloadUserFullReport` | app/admin/users/page.tsx:145-172 | no file without a selected user or results; else 7 header rows (Total Assessments = count) then one row per result in order, attempt (or 1 when missing or zero), percentage + `%` |
| `CreateAssessment.Toggled` | app/examiner/create/page.tsx:114-121 | the toggled id is selected iff it was not; others keep their membership; an absent id is appended; a present one is removed everywhere with every other id kept as often as it was (multiset), order kept |
| `CreateAssessment.ToggleTwiceRestores` | app/examiner/create/page.tsx:117-119 | toggling an absent id twice gives back the exact list |
| `CreateAssessment.ToggleKeepsDistinct` | app/examiner/create/page.tsx:117-119 | a selection without repeats stays without repeats |
| `CreateAssessment.SubmitDisabled` | app/examiner/create/page.tsx:445 | the button is disabled while loading, and enabled only with a title and, in generate mode, a prompt or, in upload mode, a file |
| `CreateAssessment.CommonFields` | app/examiner/create/page.tsx:76-85 | nine entries named as appended, in order; `createdBy` is the user's id and `assignedTo` the selected ids |
| `CreateAssessment.Payload` | app/examiner/create/page.tsx:76-91 | the common entries first, then a tenth exactly in generate mode (the prompt) or upload mode with a file (the file) |
| `CreateAssessment.SubmitFailure` | app/examiner/create/page.tsx:99-109 | the alert text of a failed submit: the rejection's message or, since the body is parsed before the status is tested, the parse error's message; else `data.error`, else `data.details`, else `'Failed to create assessment'` |
| `CreateAssessment.PayloadFields` | app/examiner/create/page.tsx:76-91 | the nine common fields come first; `prompt` is sent iff generate mode; `file` iff upload mode with a file; never both |
| `CreateAssessment.EnabledSubmitSendsContent` | app/examiner/create/page.tsx:445 | an enabled button sends a non-empty title and a non-empty prompt (generate) or a file (upload) |
| `CreateAssessment.BuildPayload` | app/examiner/create/page.tsx:76-91 | appending the entries one by one yields the payload the lemmas describe |
| `CreateAssessment.CreateAssessmentPage.constructor` | app/examiner/create/page.tsx:25-41 | generate mode, not loading, no candidates, the initial form (an empty, hence repeat-free, selection) |
| `CreateAssessment.CreateAssessmentPage.Mount` | app/examiner/create/page.tsx:43-58 | only a cached admin is kept and the candidates fetched; otherwise only a redirect to `/` |
| `CreateAssessment.CreateAssessmentPage.FetchCandidates` | app/examiner/create/page.tsx:60-70 | candidates replaced only on an ok, decodable reply |
| `CreateAssessment.CreateAssessmentPage.ToggleCandidate` | app/examiner/create/page.tsx:114-121 | only the selection changes, to its toggled value, and it stays free of repeats |
| `CreateAssessment.CreateAssessmentPage.HandleSubmit` | app/examiner/create/page.tsx:72-91 | loading is set, so the button is disabled, and the payload for the form and mode is sent |
| `CreateAssessment.CreateAssessmentPage.HandleSubmitReply` | app/examiner/create/page.tsx:93-111 | only success navigates to `/admin`; a failure alerts `'Error: '` + `data.error`, else `data.details`, else the generic text; loading false |
| `CandidateDashboard.UpcomingOf` | app/candidate/dashboard/page.tsx:86 | exactly the `upcoming` items, each as often as it occurs, in original order |
| `CandidateDashboard.VisibleUpcomingIsUpcomingPrefix` | app/candidate/dashboard/page.tsx:84-88 | the visible upcoming list is a prefix of the upcoming items, min(4, n) unless expanded, never holding a completed item |
| `CandidateDashboard.StatusesSplitItems` | app/candidate/dashboard/page.tsx:162 | upcoming and completed items together are all items, so the Upcoming stat counts exactly the upcoming ones |
| `CandidateDashboard.Percent` | app/candidate/dashboard/page.tsx:189 | score/max·100: the percentage times the maximum is a hundred times the score, and lies in [0, 100] when the score lies within its maximum |
| `CandidateDashboard.TotalPercent` | app/candidate/dashboard/page.tsx:189 | the sum of the percentages lies in [0, 100·n] when every score lies within its maximum |
| `CandidateDashboard.AverageScore` | app/candidate/dashboard/page.tsx:187-192 | 0 without results, else within 1/2 of the mean of score/max·100 |
| `CandidateDashboard.AverageScoreIsPercentage` | app/candidate/dashboard/page.tsx:187-192 | with every score between 0 and its maximum the average lies in [0, 100] |
| `CandidateDashboard.CandidateDashboardPage.constructor` | app/candidate/dashboard/page.tsx:35-42 | empty lists, collapsed views, loading |
| `CandidateDashboard.CandidateDashboardPage.SyncVisible` | app/candidate/dashboard/page.tsx:84-93 | the visible lists become the views of the current lists |
| `CandidateDashboard.CandidateDashboardPage.Mount` | app/candidate/dashboard/page.tsx:44-60 | only a cached candidate is kept, and the fetch asks for that user's id; otherwise only a redirect to `/` |
| `CandidateDashboard.CandidateDashboardPage.FetchDashboardData` | app/candidate/dashboard/page.tsx:62-82 | each list replaced only by its own ok reply; a throw on the first fetch skips the second; loading false |
| `CandidateDashboard.CandidateDashboardPage.ToggleShowAllUpcoming` | app/candidate/dashboard/page.tsx:240-253 | flips the flag and recomputes the view |
| `CandidateDashboard.CandidateDashboardPage.ToggleShowAllResults` | app/candidate/dashboard/page.tsx:286-299 | flips the flag and recomputes the view |
| `AdminDashboard.CandidateCount` | app/admin/page.tsx:206 | `assigned_to.length`, or 0 when missing |
| `AdminDashboard.DurationShown` | app/admin/page.tsx:210 | the duration when present and non-zero, else 30 |
| `AdminDashboard.Badge` | app/admin/page.tsx:212-216 | no badge without a difficulty; red iff `hard`, yellow iff `medium`, green for any other text |
| `AdminDashboard.ShownMessage` | app/admin/page.tsx:76 | the error message or `'Unknown error occurred'`: never empty, the message itself when it has one |
| `AdminDashboard.DeleteFailure` | app/admin/page.tsx:60-63 | never empty: `errorData.error`, else `'Failed to delete assessment'` (also for an undecodable body, read as `{}`), or the shown message of a rejected fetch |
| `AdminDashboard.AdminDashboardPage.constructor` | app/admin/page.tsx:14-16 | empty list, loading, no user |
| `AdminDashboard.AdminDashboardPage.Mount` | app/admin/page.tsx:18-46 | only a cached admin stays; the list is replaced only on an ok reply; loading false |
| `AdminDashboard.AdminDashboardPage.HandleDeleteAssessment` | app/admin/page.tsx:48-78 | nothing sent unless confirmed; re-fetch only after an ok delete, list replaced only if it is ok; failures alert `'Error deleting assessment: '` + `errorData.error` or the fallback (an undecodable body counts as `{}`) and keep the list |
| `ExaminerDashboard.StatsOf` | app/examiner/dashboard/page.tsx:62-66 | total = number of assessments sent (0 if missing); candidates and average default to 0 |
| `ExaminerDashboard.ExaminerDashboardPage.constructor` | app/examiner/dashboard/page.tsx:28-37 | empty list, zero figures, collapsed view, loading |
| `ExaminerDashboard.ExaminerDashboardPage.Mount` | app/examiner/dashboard/page.tsx:39-54 | only a cached examiner is kept, fetching with its id as `examinerId`; otherwise only a redirect to `/` |
| `ExaminerDashboard.ExaminerDashboardPage.FetchDashboardData` | app/examiner/dashboard/page.tsx:56-73 | an ok reply replaces the list and figures, anything else changes neither; the total always equals the list's length; loading false |
| `ExaminerDashboard.ExaminerDashboardPage.ToggleShowAll` | app/examiner/dashboard/page.tsx:252-265 | flips the flag and recomputes the view |
| `ExaminerDashboard.ExaminerDashboardPage.ShownAverage` | app/examiner/dashboard/page.tsx:191 | the displayed average is `avgScore` rounded to the nearest integer |

## Left out

- Markup, styling, icons, images and the theme toggle are presentation only.
- HTTP, `fetch` and `getApiUrl` are not modelled (`getApiUrl` is not part of this model). Each reply is a parameter; request URLs and headers are not modelled.
- Handlers are atomic. Un-awaited refreshes (`fetchUsers()` after create and delete) and races between handlers are not modelled. The same holds for renders between a state update and the effect that follows it.
- `JSON.parse` of the cached user is not modelled. The session is an `Option<Session>`; a malformed or `null` entry throws in the code and is not handled.
- Reply bodies are assumed to have the declared shapes. Only the fields the code reads are kept. `Login.LoginBody` assumes `user` is present on an ok reply.
- The text of the `confirm` prompts is not modelled, only the user's answer. `console.error` logging is not modelled.
- Dates, `new Date()`, `toLocaleString` and `toLocaleDateString` are opaque. The export takes the formatted clock and a date-formatting function as parameters. Workbook writing (XLSX) is not modelled.
- Numbers are idealised. Percentages on the users page and form numbers are integers. Averages use exact reals with `Round(x) = floor(x + 1/2)`. IEEE floating point and `NaN` from `parseInt` are not modelled.
- CandidateDashboard.AverageScore: requires every `max_score` to be positive, because the code's division by zero yields `Infinity`/`NaN`, which is not modelled.
- CandidateDashboard.Percent: requires a positive `max_score`, for the same reason.
- CandidateDashboard.TotalPercent: requires every result's `max_score` to be positive, for the same reason.
- The browser's form validation (`required`, `minLength`, `type="email"`) runs before any submit handler and is not modelled, so the handlers also accept inputs the forms never send (an empty email, a short password, an untitled assessment).
- `assignedTo` is sent as the list of ids (`IdList`). Its JSON text encoding is not spelled out.
- The form-field setters (`onChange` handlers), the mode switch and the guide toggle are plain field assignments and have no members.
- Login.LoginPage.HandleResetPassword: requires the reset modal to be open (and so a kept user), because the reset form is only rendered then.
- CreateAssessment.CreateAssessmentPage.HandleSubmit: requires a kept user, because the form is only rendered once the guard has stored one.
