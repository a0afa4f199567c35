# Health-reporting client: a Dafny model of its session and table logic

The system is a React client for a community health-reporting service.
Doctors, Sheha (ward) officers and health supervisors sign in. They browse
patients and case reports in sortable, paged tables with summary cards and
charts, edit patients, and edit their own profiles. This project models the
logic under that user interface and proves properties of it:

- `auth.dfy` (module `Auth`): the session provider. It restores a session
  from local storage, logs in and out, and refreshes the access token. It
  also holds the request and response interceptors of the global HTTP
  client. Pure functions over a `State` value specify every step. The
  class `AuthProvider` runs the same steps in place, and each method
  ensures it lands in the state the function gives. The server is a
  parameter `net`, which answers a request given the requests sent before
  it. `login`'s and `refreshToken`'s own requests go through the
  interceptors too, so sending, the 401 handler and the refresh are
  mutually recursive. A `fuel` bound counts the nested refreshes, and a
  call that runs out of fuel is `Unsettled`.
- `case_table.dfy` (module `CaseTable`): the table logic that the
  dashboards and the case-report page share. It covers status filters and
  summary counts, the card filter, the sort toggle, the comparator and a
  stable sort of a copy, page slicing, the age and category pie buckets,
  and the per-month bar counts (a loop over a dictionary). The table's UI
  state is the class `TableView`, and a dashboard's state is the class
  `Dashboard`.
- `case_dashboard.dfy` (module `CaseDashboard`): the health-supervisor
  dashboard and the Sheha dashboard, which repeat the same code. It holds
  their titles, age table, action rule, gender pie and marker colours.
- `doctor_dashboard.dfy` (module `DoctorDashboard`): the doctor's
  dashboard. Its rows are patient records, and its titles, age table and
  action rule are its own.
- `case_reports.dfy` (module `CaseReports`): the case-report list. It
  covers local removal after a delete, the initial sort by date, and the
  role gate of the "add report" button.
- `edit_profile.dfy` (module `EditProfile`): the per-field validator, the
  whole-form check, and the profile form's state and handlers.
- `update_patient.dfy` (module `UpdatePatient`): the role-to-endpoint
  prefix, the patient URL, the select options, and the editor's state and
  handlers.
- `header.dfy` (module `Header`): initials and display name, and the user
  menu.
- `js.dfy` (module `Js`): the JavaScript value semantics the code relies
  on. It covers JSON-like values, property reads that may be `undefined`,
  truthiness, the string conversion of template literals, `||` with a text
  fallback, the `\s` character class and `trim`.

Inputs that the code reads from the outside are parameters of the model.
These are the server's replies, the user's confirmation, `toLocaleDateString`
(as `localeDate`), the "reported today" test (as `isNew`) and the month key
of the bar chart (as `monthOf`). Effects on the outside are recorded in
sequence fields: toasts, navigations, sent requests and the paths of
deletes.

One might expect a user to be signed in exactly when an access token is
stored. The code guarantees only one direction:
a signed-in user implies a stored token (`Auth.Inv`, kept by every
operation). `Auth.TokenWithoutUser` shows that a refresh stores a token
for a state with no user. The model follows the code.

## Model

| member | source | states |
|---|---|---|
| Auth.InitializeKeepsInv | src/context/AuthContext.jsx:16-29 | restoring a session never produces a user without a stored access token |
| Auth.InitializeMeaning | src/context/AuthContext.jsx:16-29 | the user changes only when both the token and the user record are stored, and then to the parsed record; with either one missing, only `loading` changes (to false); with both stored and the record parseable, that record becomes the user, loading ends, the default header is "Bearer "+token and the toast "Welcome back, <first_name, or User>!" is shown; with both stored and a record that does not parse, only the header is set and loading stays true, because the restore throws; storage and the request log are never touched |
| Auth.LoginResult | src/context/AuthContext.jsx:35-75 | login keeps the invariant that a user implies a stored token |
| Auth.LoginKeepsInv | src/context/AuthContext.jsx:35-75 | login, in every outcome including nested refreshes and logouts, keeps the invariant |
| Auth.LoginMessage | src/context/AuthContext.jsx:57-66 | a 401 response gives "Invalid username or password"; otherwise a truthy `detail` gives that detail, else status 500 gives "Server error. Please try again later."; no response, or any other case, gives "Login failed. Please try again." |
| Auth.LoginSucceeds | src/context/AuthContext.jsx:37-53 | when the server accepts the login, storage gains access_token, refresh_token and the stringified user record, which has no access or refresh; the user becomes that record; the header is "Bearer "+access; the app navigates to "/dashboard"; the toast "Welcome, <first_name, or User>!" is shown; the result is true; exactly one request, the login POST as the interceptor shaped it, is sent |
| Auth.LoginThenRestore | src/context/AuthContext.jsx:40-45 | with a JSON codec that round-trips, a reload after a login restores the same user record |
| Auth.LoginFailsPlainly | src/context/AuthContext.jsx:54-73 | a failure that does not reach the refresh path leaves storage, header, user and navigations unchanged; it shows the interceptor toast (for status >= 400) and then the login message, and the result is false |
| Auth.LogoutClears | src/context/AuthContext.jsx:78-92 | logout removes the three session keys and nothing else, clears the default header and the user, and leaves the invariant holding |
| Auth.LogoutIdempotent | src/context/AuthContext.jsx:78-92 | logging out twice leaves storage, header and user as logging out once does |
| Auth.FarewellText | src/context/AuthContext.jsx:86 | the farewell toast reads "Goodbye! You have been logged out." without a captured user, and "Goodbye, <name>! …" for a user whose `first_name` is a non-empty string |
| Auth.AttachToken | src/context/AuthContext.jsx:119-124 | URL, body and retry flag are kept; a stored non-empty token sets the header to "Bearer "+token; otherwise the request's own header or the client default stays |
| Auth.AttachTokenIff | src/context/AuthContext.jsx:119-124 | starting from no header, the interceptor adds one exactly when a non-empty token is stored, and otherwise leaves the request unchanged |
| Auth.SendResult | src/context/AuthContext.jsx:131-157 | sending a request through the client keeps the invariant |
| Auth.ErrorResult | src/context/AuthContext.jsx:131-157 | the response interceptor's error handler keeps the invariant |
| Auth.RefreshResult | src/context/AuthContext.jsx:95-114 | the refresh keeps the invariant |
| Auth.SendFailed | src/context/AuthContext.jsx:131 | a refused request goes to the error handler with the request as the request interceptor shaped it, already logged as sent |
| Auth.SendAnswered | src/context/AuthContext.jsx:130 | an answered request resolves with the response body, and only the log of sent requests changes |
| Auth.RetriedNotRefreshed | src/context/AuthContext.jsx:133 | a 401 on a request whose retry flag is set never refreshes: nothing is sent, the session is unchanged, it rejects with that error and shows the interceptor toast |
| Auth.PlainErrorsRejected | src/context/AuthContext.jsx:146-156 | every error outside the refresh path is rejected with its response and request; a toast of message, else detail, else "An error occurred. Please try again." is added exactly when there is a response with status >= 400; nothing else changes |
| Auth.RefreshWithoutToken | src/context/AuthContext.jsx:95-114 | without a stored refresh token the refresh rejects, clears the session, and shows the expiry warning and then "Goodbye! You have been logged out."; nothing is sent |
| Auth.RefreshSucceeds | src/context/AuthContext.jsx:100-105 | an answered refresh stores the new access token and makes it the default header; refresh_token, the user record, the user, toasts and navigations stay unchanged; it resolves with the new token |
| Auth.RetryOnce | src/context/AuthContext.jsx:133-138 | after a first 401 and a successful refresh, exactly two requests are sent, the refresh and then the original request marked retried and carrying "Bearer "+new token; the caller gets that resend's answer, or its rejection when the server refuses it |
| Auth.SendAppends | src/context/AuthContext.jsx:119-131 | a send first logs exactly the request as the interceptor shaped it |
| Auth.OnErrorExtends | src/context/AuthContext.jsx:131-157 | the error handler only appends to the log of sent requests |
| Auth.SendExtends | src/context/AuthContext.jsx:131-157 | a send appends at least one request to the log and never rewrites it |
| Auth.RefreshExtends | src/context/AuthContext.jsx:95-114 | a refresh only appends to the log of sent requests |
| Auth.WrongPasswordWithoutSession | src/context/AuthContext.jsx:37 | as written, a 401 from login with no refresh token stored shows the expiry warning, two farewells and "Login failed. Please try again.", navigates to "/" twice, clears the session, and returns false |
| Auth.WrongPasswordWithStaleSession | src/context/AuthContext.jsx:37 | as written, a 401 from login while a refresh token is stored refreshes the token and resends the login once; the user sees the interceptor toast and "Invalid username or password", the stale session keeps a new access token, three requests are sent, and the result is false |
| Auth.RefreshNeverSettles | src/context/AuthContext.jsx:100 | as written, when the server refuses every refresh with 401 and a refresh token is stored, the refresh never settles for any bound |
| Auth.LoginNeverSettles | src/context/AuthContext.jsx:37 | as written, a refused login with a stored refresh token, against such a server, never settles either |
| Auth.WrongPasswordGuarded | src/context/AuthContext.jsx:59-60 | with the login and refresh endpoints kept out of the refresh path, a 401 from login shows the interceptor toast and "Invalid username or password", leaves the session and navigations unchanged, and returns false |
| Auth.RefreshRefusedGuarded | src/context/AuthContext.jsx:106-112 | with the same guard, a refresh refused with 401 rejects at once with that response and clears the session |
| Auth.TokenWithoutUser | src/context/AuthContext.jsx:100-105 | a stored token does not imply a user: a refresh from a state with only a refresh token stores an access token while the user stays null |
| Auth.AuthProvider.constructor | src/context/AuthContext.jsx:9-10 | a mounted provider has no user, is loading, and has no header, toasts, navigations or requests |
| Auth.AuthProvider.Authenticated | src/context/AuthContext.jsx:172 | `isAuthenticated` is true exactly when there is a user |
| Auth.AuthProvider.InitializeAuth | src/context/AuthContext.jsx:16-29 | changes the provider's state exactly as `Initialize` says |
| Auth.AuthProvider.Logout | src/context/AuthContext.jsx:78-92 | changes the state as `LoggedOut` does, with the farewell naming the current user |
| Auth.AuthProvider.RequestInterceptor | src/context/AuthContext.jsx:119-124 | returns the request with "Bearer "+token when a non-empty token is stored, and otherwise with its own or the default header; URL, body and retry flag are kept |
| Auth.AuthProvider.Send | src/context/AuthContext.jsx:119-157 | changes the state and settles as `SendResult` says |
| Auth.AuthProvider.OnResponseError | src/context/AuthContext.jsx:131-157 | changes the state and settles as `ErrorResult` says |
| Auth.AuthProvider.RefreshToken | src/context/AuthContext.jsx:95-114 | changes the state and settles as `RefreshResult` says |
| Auth.AuthProvider.Login | src/context/AuthContext.jsx:35-75 | changes the state and answers as `LoginResult` says |
| CaseTable.Filter | src/pages/HealthsupervisorDashboard.jsx:136-137 | the result holds exactly the input rows the predicate accepts, and is no longer than the input |
| CaseTable.FilterAppend | src/pages/HealthsupervisorDashboard.jsx:136-137 | filtering distributes over concatenation, so the kept rows stay in their order |
| CaseTable.FilterDisjoint | src/pages/HealthsupervisorDashboard.jsx:136-137 | two predicates that never both accept a row together select at most all the rows |
| CaseTable.FilterAll | src/pages/CaseReports.jsx:60 | a filter that accepts every row returns the rows unchanged |
| CaseTable.Summarize | src/pages/HealthsupervisorDashboard.jsx:131-140 | total is the number of rows, recovered and deceased count the status "Recovered" and "Dead", new counts the rows reported today; recovered + deceased <= total and new <= total; the same code is repeated at ShehaDashboard.jsx:70-79, DoctorDashboard.jsx:67-76 |
| CaseTable.SelectMeaning | src/pages/HealthsupervisorDashboard.jsx:150-181 | "total" gives all rows; "recovered", "deceased" and "new" give exactly the rows with that status or reported today; any other type gives none; never more rows than the input; the same code is repeated at ShehaDashboard.jsx:89-120, DoctorDashboard.jsx:86-117 |
| CaseTable.SelectMatchesSummary | src/pages/HealthsupervisorDashboard.jsx:150-181 | the modal opened from a card lists as many rows as the card counts |
| CaseTable.Toggle | src/pages/HealthsupervisorDashboard.jsx:192-196 | the clicked column becomes the sort column; the direction becomes descending exactly when it was that column ascending, and ascending otherwise; the same code is repeated at ShehaDashboard.jsx:131-135, DoctorDashboard.jsx:128-132, CaseReports.jsx:75-79 |
| CaseTable.ToggleTwice | src/pages/HealthsupervisorDashboard.jsx:192-196 | clicking the sort column twice restores the sort state |
| CaseTable.StrLessAsymmetric | src/pages/HealthsupervisorDashboard.jsx:209-210 | no two strings are each less than the other |
| CaseTable.StrLessTotal | src/pages/HealthsupervisorDashboard.jsx:209-210 | of two different strings one is less than the other |
| CaseTable.StrLessTransitive | src/pages/HealthsupervisorDashboard.jsx:209-210 | string order is transitive |
| CaseTable.LessAsymmetric | src/pages/HealthsupervisorDashboard.jsx:209-210 | `<` on two property values is never true both ways |
| CaseTable.Compare | src/pages/HealthsupervisorDashboard.jsx:207-212 | the comparator answers -1, 0 or 1, and 0 exactly when neither key is less than the other |
| CaseTable.CompareAntisymmetric | src/pages/HealthsupervisorDashboard.jsx:207-212 | swapping the rows negates the comparator |
| CaseTable.CompareTransitive | src/pages/HealthsupervisorDashboard.jsx:207-212 | on keys of one kind (all numbers or all strings) the comparator is transitive |
| CaseTable.Insert | src/pages/HealthsupervisorDashboard.jsx:207-212 | inserting adds exactly the one row |
| CaseTable.Sort | src/pages/HealthsupervisorDashboard.jsx:207 | the sorted copy has as many rows as the input |
| CaseTable.SortPermutation | src/pages/HealthsupervisorDashboard.jsx:207-212 | the sorted copy is a permutation of the table's rows; the same code is repeated at ShehaDashboard.jsx:146-151, DoctorDashboard.jsx:138-143, CaseReports.jsx:81-86 |
| CaseTable.InsertOrdered | src/pages/HealthsupervisorDashboard.jsx:207-212 | inserting a row of the same key kind into an ordered sequence keeps it ordered |
| CaseTable.SortOrdered | src/pages/HealthsupervisorDashboard.jsx:207-212 | with keys of one kind, the sorted copy is in comparator order for the chosen direction; the same code is repeated at CaseReports.jsx:81-86 |
| CaseTable.InsertKeepsTies | src/pages/HealthsupervisorDashboard.jsx:211 | inserting into an ordered sequence puts the row after every row with its sort value and keeps those rows' order |
| CaseTable.SortKeepsTieOrder | src/pages/HealthsupervisorDashboard.jsx:207-212 | the sort is stable: for every sort value, the rows holding it keep their input order, when the sort column holds values of one kind |
| CaseTable.InsertTied | src/pages/HealthsupervisorDashboard.jsx:211 | a row tied with every row goes to the end |
| CaseTable.SortStable | src/pages/HealthsupervisorDashboard.jsx:211 | when all rows tie, the sort keeps their order |
| CaseTable.MissingColumnKeepsOrder | src/pages/HealthsupervisorDashboard.jsx:92 | sorting by a column no row has, such as the initial `first_name` on case rows, keeps the order |
| CaseTable.PageSlice | src/pages/HealthsupervisorDashboard.jsx:502 | the page has at most rpp rows and no more than the input; entry k is row page·rpp+k; a page past the end is empty, and a page inside has min(rpp, remaining) rows; the same code is repeated at ShehaDashboard.jsx:399, DoctorDashboard.jsx:340, CaseReports.jsx:146 |
| CaseTable.PageOfRow | src/pages/HealthsupervisorDashboard.jsx:502 | every row appears on page i / rpp, at position i % rpp |
| CaseTable.SliceSubMultiset | src/pages/HealthsupervisorDashboard.jsx:502 | a page holds only rows of the table, each at most as often as there |
| CaseTable.ContiguousMembership | src/pages/HealthsupervisorDashboard.jsx:297-306 | in a table of contiguous age groups, every age in the table's range is in exactly one group and every other age in none |
| CaseTable.DropEmpty | src/pages/HealthsupervisorDashboard.jsx:311 | the kept slices are exactly those with a positive value |
| CaseTable.DropEmptyTotal | src/pages/HealthsupervisorDashboard.jsx:311 | dropping empty slices does not change the pie's total |
| CaseTable.AgeSlices | src/pages/HealthsupervisorDashboard.jsx:308-310 | one slice per group, in order, named after it and counting the rows whose age, converted to a number as JavaScript's `>=` and `<=` convert it, lies in it |
| Js.ToNumber | src/pages/HealthsupervisorDashboard.jsx:310 | the conversion the age comparisons apply: null and false are 0, true is 1, a number is itself, text is converted, and a missing property or an object is NaN |
| Js.NumberTextRoundTrip | src/pages/HealthsupervisorDashboard.jsx:310 | a number written out as text converts back to the same number |
| CaseTable.AgePie | src/pages/HealthsupervisorDashboard.jsx:308-311 | the pie holds exactly the non-empty group slices |
| CaseTable.AgeSlicesTotal | src/pages/HealthsupervisorDashboard.jsx:308-310 | the slices add up to the summed group sizes |
| CaseTable.GroupCountSnoc | src/pages/HealthsupervisorDashboard.jsx:310 | one more row adds the number of groups its age lies in |
| CaseTable.GroupCountRows | src/pages/HealthsupervisorDashboard.jsx:308-310 | for contiguous groups, the summed group sizes equal the number of rows whose converted age is in the table's range |
| CaseTable.GroupCountEmpty | src/pages/HealthsupervisorDashboard.jsx:310 | no rows, no counts |
| CaseTable.AgePieTotal | src/pages/HealthsupervisorDashboard.jsx:297-311 | for contiguous groups, the pie counts every row whose converted age is in range exactly once |
| CaseTable.CategorySlices | src/pages/HealthsupervisorDashboard.jsx:318-320 | one slice per key, in order, counting the rows whose field equals it |
| CaseTable.CategoryPie | src/pages/HealthsupervisorDashboard.jsx:318-321 | the pie holds exactly the non-empty category slices, and has no more slices than keys |
| CaseTable.FirstSeen | src/pages/HealthsupervisorDashboard.jsx:295 | the months in order of first appearance: each month of some row, each once |
| CaseTable.MonthlyBars | src/pages/HealthsupervisorDashboard.jsx:290-295 | one bar per month that occurs, in order of first appearance, counting the rows in that month; the same code is repeated at ShehaDashboard.jsx:219-224, DoctorDashboard.jsx:201-206 |
| CaseTable.OccurrencesAbsent | src/pages/HealthsupervisorDashboard.jsx:293 | a month that no row has counts zero |
| CaseTable.TableView.constructor | src/pages/HealthsupervisorDashboard.jsx:89-92 | page 0, five rows per page, the given sort, no rows |
| CaseTable.TableView.HandleChangePage | src/pages/HealthsupervisorDashboard.jsx:185 | sets the page and nothing else |
| CaseTable.TableView.HandleChangeRowsPerPage | src/pages/HealthsupervisorDashboard.jsx:187-190 | sets rows per page and resets the page to 0; rows and sort unchanged; the same code is repeated at ShehaDashboard.jsx:126-129, DoctorDashboard.jsx:123-126, CaseReports.jsx:70-73 |
| CaseTable.TableView.HandleSort | src/pages/HealthsupervisorDashboard.jsx:192-196 | the sort state becomes `Toggle` of the old one; rows and paging unchanged |
| CaseTable.TableView.SetRows | src/pages/HealthsupervisorDashboard.jsx:178 | replaces the rows and keeps page, rows per page and sort |
| CaseTable.TableView.Visible | src/pages/HealthsupervisorDashboard.jsx:502 | the displayed rows are at most rows-per-page, and are rows of the table, each at most as often as there |
| CaseTable.CaseRow | src/pages/HealthsupervisorDashboard.jsx:117-127 | a case without a patient (missing or null) cannot be flattened; otherwise the row keeps every other field, lifts status and age from the patient, and its name is the patient's first and last names joined by a space; the same code is repeated at ShehaDashboard.jsx:56-66 |
| CaseTable.CaseRows | src/pages/HealthsupervisorDashboard.jsx:117 | all cases are flattened, position by position, or the whole map fails when any case cannot be |
| CaseTable.Dashboard.constructor | src/pages/HealthsupervisorDashboard.jsx:76-92 | zero counts, loading, no data, modal closed, table sorted by first_name ascending |
| CaseTable.Dashboard.Loaded | src/pages/HealthsupervisorDashboard.jsx:131-140 | the data becomes the rows, the summary their counts, and loading ends; the modal is untouched |
| CaseTable.Dashboard.LoadFailed | src/pages/HealthsupervisorDashboard.jsx:141-143 | only loading changes, to false |
| CaseTable.Dashboard.ShowModal | src/pages/HealthsupervisorDashboard.jsx:178-180 | the modal table shows the given rows under the given title and opens; page and sort are kept |
| CaseTable.Dashboard.HandleCloseModal | src/pages/HealthsupervisorDashboard.jsx:183 | only closes the modal |
| CaseDashboard.ModalTitle | src/pages/HealthsupervisorDashboard.jsx:150-181 | each of the four card types has a non-empty title, and any other type has none; the same code is repeated at ShehaDashboard.jsx:89-120 |
| CaseDashboard.FetchCases | src/pages/HealthsupervisorDashboard.jsx:108-148 | loading ends; when every case flattens and the "new" test answers for every row, the data becomes the flattened rows and the summary their counts; when the request fails, a case cannot be flattened, or `toISOString` throws on a row's rendered date, data and summary stay; the same code is repeated at ShehaDashboard.jsx:47-86 |
| CaseDashboard.HandleOpenModal | src/pages/HealthsupervisorDashboard.jsx:150-181 | the modal table shows the card's selection of the dashboard data, with the card's title; page, rows per page and sort are kept; the same code is repeated at ShehaDashboard.jsx:89-120 |
| CaseDashboard.Action | src/pages/HealthsupervisorDashboard.jsx:510-520 | every row has a button; it is disabled exactly when the status is "Dead", captioned "Closed" then and "Update" otherwise; the same code is repeated at ShehaDashboard.jsx:407-417 |
| CaseDashboard.ActionsOfPage | src/pages/HealthsupervisorDashboard.jsx:502-520 | every row on the displayed page belongs to the table and is disabled exactly when dead |
| CaseDashboard.AgeGroupsPartition | src/pages/HealthsupervisorDashboard.jsx:297-306 | each age from 0 to 120 lies in exactly one of the eight groups, any other age in none; the same code is repeated at ShehaDashboard.jsx:226-235 |
| CaseDashboard.AgePieAccountsForAll | src/pages/HealthsupervisorDashboard.jsx:297-311 | the age pie adds up to the number of rows whose converted age is in 0..120; the same code is repeated at ShehaDashboard.jsx:226-240 |
| CaseDashboard.CoercedAgesCounted | src/pages/HealthsupervisorDashboard.jsx:310 | a null age counts as 0 and lands in "0-5"; the text "30" lands in "26-35" |
| CaseDashboard.UnconvertibleAgesUncounted | src/pages/HealthsupervisorDashboard.jsx:310 | the text "thirty" and a missing age convert to NaN and lie in no group |
| CaseDashboard.GenderPie | src/pages/HealthsupervisorDashboard.jsx:313-321 | at most two slices; a slice is there exactly when it is "Male" or "Female", counts the rows of that gender, and the count is positive |
| CaseDashboard.MarkerColor | src/pages/HealthsupervisorDashboard.jsx:226-235 | success colour exactly for "Recovered", error colour exactly for "Dead", primary otherwise |
| CaseDashboard.Markers | src/pages/HealthsupervisorDashboard.jsx:43-48 | one marker per row with a truthy street_location, coloured by that row's status |
| DoctorDashboard.ModalTitle | src/pages/DoctorDashboard.jsx:86-117 | the doctor's four titles, and none for any other type |
| DoctorDashboard.PatientRow | src/pages/DoctorDashboard.jsx:58-63 | the row gains the name (first and last names joined by a space) and both dates rendered; every other field is the patient's own |
| DoctorDashboard.PatientRows | src/pages/DoctorDashboard.jsx:58-63 | every patient is mapped, position by position |
| DoctorDashboard.StatusCountsOfRaw | src/pages/DoctorDashboard.jsx:67-76 | the status counts of the mapped rows are those of the raw patient records |
| DoctorDashboard.FetchPatients | src/pages/DoctorDashboard.jsx:47-83 | loading ends; on success, when the "new" test answers for every row, the data becomes the mapped rows and the summary their counts; when the request fails or `toISOString` throws on a row's rendered `created_at`, data and summary stay |
| DoctorDashboard.HandleOpenModal | src/pages/DoctorDashboard.jsx:86-117 | the modal table shows the card's selection with the doctor's title; page, rows per page and sort are kept |
| DoctorDashboard.Action | src/pages/DoctorDashboard.jsx:342-351 | no action exactly for a dead patient; otherwise an enabled "update" button |
| DoctorDashboard.AgeGroupsPartition | src/pages/DoctorDashboard.jsx:208-218 | each age from 0 to 80 lies in exactly one of the nine groups; older patients lie in none |
| DoctorDashboard.AgePieAccountsFor | src/pages/DoctorDashboard.jsx:208-222 | the age pie adds up to the number of patients whose converted age is in 0..80 only |
| CaseReports.Without | src/pages/CaseReports.jsx:60 | the kept cases are exactly those whose id differs from the deleted one |
| CaseReports.WithoutOne | src/pages/CaseReports.jsx:60 | deleting a report that occurs once removes exactly it and keeps the rest in order |
| CaseReports.WithoutIdempotent | src/pages/CaseReports.jsx:60 | removing the same id again changes nothing |
| CaseReports.AddButtonShown | src/pages/CaseReports.jsx:136 | the button shows exactly when there is a user whose role is neither "Doctor" nor "HealthSupervisor" |
| CaseReports.CaseList.constructor | src/pages/CaseReports.jsx:18-25 | no cases, loading, sorted by date descending, five rows per page |
| CaseReports.CaseList.FetchCases | src/pages/CaseReports.jsx:27-46 | loading ends in every case; the cases become the response body when there is one |
| CaseReports.CaseList.HandleDelete | src/pages/CaseReports.jsx:48-64 | unconfirmed, nothing changes; confirmed, one delete of "cases/<id>/" is sent, and only when it succeeds is the report removed; paging and sort kept |
| CaseReports.CaseList.TotalRows | src/pages/CaseReports.jsx:149 | the count is the number of cases, never less than the rows shown |
| EditProfile.ValidateField | src/pages/EditProfile.jsx:73-100 | the result is "" or one of the four messages; it needs `value.length` to be readable, i.e. no null name or phone |
| EditProfile.NumericPhoneRule | src/pages/EditProfile.jsx:83-89 | a phone held as a number has no `length`, so no length limit applies: any non-negative number is valid, a negative one is "Only numbers and + allowed" |
| EditProfile.NameRule | src/pages/EditProfile.jsx:77-82 | a first or last name is in error exactly when longer than 20 characters, with "Must be 20 characters or less" |
| EditProfile.PhoneRule | src/pages/EditProfile.jsx:83-89 | over 13 characters gives the length error first; otherwise "Only numbers and + allowed" exactly when some character is outside [0-9+]; valid exactly when short enough and all digits or '+' (so the empty phone is valid) |
| EditProfile.EmailPatternShape | src/pages/EditProfile.jsx:91 | the address pattern accepts exactly the values with no whitespace, exactly one '@' with something before it, and a '.' in the domain that is neither first nor last |
| EditProfile.EmailRule | src/pages/EditProfile.jsx:90-94 | an e-mail is valid exactly when empty or of that shape, and otherwise has "Invalid email format" |
| EditProfile.UnknownFieldRule | src/pages/EditProfile.jsx:95-96 | a field name outside the four never has an error |
| EditProfile.FormErrors | src/pages/EditProfile.jsx:118-123 | the errors record has exactly the four fields, each with its own field's result |
| EditProfile.FormValidMeaning | src/pages/EditProfile.jsx:117-128 | the form is valid exactly when no name's `length` exceeds 20, the e-mail is falsy or its text matches the pattern, and the phone's `length` does not exceed 13 and it is falsy or its text is digits and '+'; for a form of strings: names at most 20 characters, the e-mail empty or well-formed, the phone at most 13 characters of digits and '+' |
| EditProfile.Fetched | src/pages/EditProfile.jsx:55-58 | the fallback to '' keeps a truthy value as it is, of whatever type, and gives "" otherwise; never null |
| EditProfile.FailureMessage | src/pages/EditProfile.jsx:158 | a truthy server message is shown as its text; with no response body or no truthy message, the text is "Failed to update profile" |
| EditProfile.ProfileForm.constructor | src/pages/EditProfile.jsx:28-42 | all four fields and errors empty, loading, not saving, no error |
| EditProfile.ProfileForm.FetchProfile | src/pages/EditProfile.jsx:44-71 | without a truthy user id nothing happens (loading stays true); otherwise loading ends and each field becomes the response's value, kept as it is when truthy, or "", and the fetch error stays as it was; a failed fetch sets the fetch error instead |
| EditProfile.ProfileForm.HandleChange | src/pages/EditProfile.jsx:102-115 | the named field takes the value and its own error message; every other field and error is unchanged |
| EditProfile.ProfileForm.ValidateForm | src/pages/EditProfile.jsx:117-128 | the errors become exactly the four results, and the answer is true exactly when the form is valid |
| EditProfile.ProfileForm.HandleSubmit | src/pages/EditProfile.jsx:130-165 | an invalid form shows "Please fix the errors in the form" and sends nothing; without a user nothing is sent and "Failed to update profile" is shown; otherwise one patch of "users/<id>/" with the form is sent, a success shows "Profile updated successfully!" and goes to "/profile", a failure shows the failure message; saving ends false |
| UpdatePatient.Options | src/pages/UpdatePatient.jsx:150-177 | only gender, condition and status have options |
| UpdatePatient.OptionValues | src/pages/UpdatePatient.jsx:7-21 | status offers only Recovered, Dead and Alive, condition only Normal and Severe, gender only Male and Female; each option shows its own value |
| UpdatePatient.EndpointPrefix | src/pages/UpdatePatient.jsx:32-43 | "doctor/" exactly for "Doctor", "sheha/" exactly for "Sheha", "supervisor/" exactly for "Health Supervisor", and "" exactly for any other role |
| UpdatePatient.UnspacedSupervisorUnprefixed | src/pages/UpdatePatient.jsx:38 | the role spelled "HealthSupervisor" gets no prefix |
| UpdatePatient.PatientUrlSeparatesRoles | src/pages/UpdatePatient.jsx:50 | two roles share a patient URL exactly when they share the prefix |
| UpdatePatient.PatientEditor.constructor | src/pages/UpdatePatient.jsx:24-30 | no patient, loading, not saving, no requests |
| UpdatePatient.PatientEditor.FetchPatient | src/pages/UpdatePatient.jsx:45-66 | with no user nothing is requested and nothing changes; with a user, one GET of the role's patient URL is sent, loading ends, and the patient becomes the response when there is one |
| UpdatePatient.PatientEditor.HandleChange | src/pages/UpdatePatient.jsx:68-73 | the field takes the value; every other field is the previous patient's (none for a null patient) |
| UpdatePatient.PatientEditor.HandleSelect | src/pages/UpdatePatient.jsx:150-177 | picking an option sets the field to that option's value and nothing else |
| UpdatePatient.PatientEditor.HandleSubmit | src/pages/UpdatePatient.jsx:75-93 | with a user, the patient is sent by PUT to the same URL it was loaded from, and a success goes back one page; without one nothing is sent; saving ends false |
| Header.Head | src/components/Header.jsx:47 | a falsy name gives "", a non-empty string gives its first character |
| Header.Initials | src/components/Header.jsx:44-48 | the initials are empty exactly when there is no user |
| Header.InitialsOfNames | src/components/Header.jsx:44-48 | with string names: one or two characters, the first letters of the names that are set, in order, or "U" when neither is |
| Header.FullName | src/components/Header.jsx:51-55 | "Guest" without a user; never empty and never with whitespace at either end; "User" when the joined names trim to nothing, otherwise the trimmed names |
| Header.FullNameFallback | src/components/Header.jsx:54 | the "User" fallback applies exactly when the joined names are all whitespace, in particular when both names are falsy |
| Header.FullNameOfCleanNames | src/components/Header.jsx:54 | names without whitespace at their outer ends show as "first last" |
| Header.UserMenu.constructor | src/components/Header.jsx:40 | the menu starts with no anchor |
| Header.UserMenu.IsOpen | src/components/Header.jsx:41 | the menu is open exactly when it has an anchor |
| Header.UserMenu.HandleMenuOpen | src/components/Header.jsx:57-59 | anchors the menu at the clicked element, which opens it |
| Header.UserMenu.HandleMenuClose | src/components/Header.jsx:61-63 | clears the anchor, which closes the menu |
| Header.UserMenu.HandleProfileClick | src/components/Header.jsx:65-69 | closes the menu |
| Header.UserMenu.HandleThemeToggle | src/components/Header.jsx:76-79 | closes the menu and asks for the other theme exactly once |
| Header.UserMenu.HandleLogout | src/components/Header.jsx:71-74 | closes the menu and logs out through the provider with the current user; afterwards nobody is signed in |

## Findings

| source | as written | input that shows it | evidently intended | confidence | as-written member | corrected member |
|---|---|---|---|---|---|---|
| src/context/AuthContext.jsx:133 | the 401 handler refreshes on every 401, including one from `login/`; with no refresh token the login's catch then sees the refresh error, which has no response | a wrong password with nothing stored: the user sees the expiry warning, "Goodbye! You have been logged out." twice and "Login failed. Please try again.", and is sent to "/" twice | a 401 from `login/` reaches the catch at lines 59-60 and shows "Invalid username or password" | high, not executed | Auth.WrongPasswordWithoutSession | Auth.WrongPasswordGuarded |
| src/context/AuthContext.jsx:100 | the refresh request goes through the same 401 handler without its retry flag set, so a 401 from `refresh/` starts another refresh of the same kind | a stored but expired refresh token that the server refuses with 401: the refresh requests repeat without end and the call never settles | a refused refresh lands in the catch at lines 106-112, which warns and logs out | high, not executed | Auth.RefreshNeverSettles | Auth.RefreshRefusedGuarded |

Both corrections are the same guard. The field `Env.guard` selects it:
`AsWritten` follows the code, and `SkipAuthEndpoints` keeps the login and
refresh endpoints out of the refresh path. All other Auth functions,
methods and lemmas hold for either setting unless their requires name one.

## Left out

- HTTP, local storage, toasts and navigation are not run. The server is the parameter `net`; storage is a map; toasts, navigations and sent requests are recorded in sequences.
- JSON is the codec `Auth.Codec`. `JSON.parse` giving a non-object (a number, say) is treated like a parse that throws.
- Dates are parameters: `toLocaleDateString` is `localeDate`, the `toISOString` "reported today" test is `isNew` (a `CaseTable.DateTest`, which is `None` where `toISOString` throws, as it does for "Invalid Date" or a day-first date with a day above 12), and the bar chart's month name is `monthOf`. Which rendered dates fail to parse is left to that parameter. Time zones and locales are not modelled.
- React mechanics are not modelled: rendering, effects and their dependencies, batching of state updates, and the registration and removal of the interceptors.
- Concurrency is left out. The model has no concurrent 401s and no interleaving of asynchronous calls, and the code has no refresh deduplication to model.
- Auth.Logout (the function `LoggedOut`): an interceptor's logout passes no user, because its closures come from the provider's first render, where the user is still null. This is why the farewell then reads "Goodbye!".
- Auth.RefreshResult: the refresh bound `fuel` is a modelling device. A call that needs more nested refreshes than the bound is `Unsettled`; the lemmas say which calls stay unsettled for every bound.
- The explicit `Authorization` headers that the pages set on their own requests are not modelled. The request interceptor overrides them whenever a token is stored.
- The pages' own requests (dashboards, case list, profile, patient editor) are not routed through the modelled interceptors. Their replies are inputs, so a 401 on them does not trigger a refresh in the model.
- Loading and saving spinners, the error screens and Material UI styling are left out.
- Leaflet map and icons, Recharts charts and their percentage labels (floating point) are left out. The markers are modelled only as a list of rows with colours.
- JavaScript `<` between values of different kinds (a number against a string, `undefined`, null) is treated as false. Sortedness is proved only for columns whose values are all numbers or all strings; for other columns only the permutation is proved.
- Strings are sequences of Unicode characters. `first_name[0]`, `value.length` and the string order of `<` (CaseTable.StrLess, by code point) work on UTF-16 code units in JavaScript, which differ for characters outside the Basic Multilingual Plane: `"\u{1F600}" < "\uFF01"` holds in JavaScript and not in the model.
- JSON arrays are not values of the model (`Js.Value` has no array case), so an age of `[30]`, which JavaScript compares as 30, and an array-valued profile field, which has a `length`, cannot be expressed.
- CaseTable.FirstSeen: the result is the key order of `Object.entries` only for keys that are not integer-like; JavaScript lists integer-like keys first, in ascending order. The month keys come from `toLocaleString` with `month: 'short'`, which gives month names, so the model does not capture that ordering.
- JSON numbers are integers (`Js.Num`). A fractional age is not modelled: JavaScript puts 3.5 in "0-5" and 5.5 in no group.
- Js.ToNumber: text is converted only in the integer notation (optional whitespace, optional sign, decimal digits; the empty text is 0). Text with a decimal point, an exponent, a hex prefix or "Infinity", which JavaScript converts to a number, is treated as NaN, so such an age is in no group.
- `parseInt` of the rows-per-page value is an input natural number; its NaN case is left out.
- CaseReports.Without: ids are compared as values; JavaScript's `!==` compares objects by reference.
- CaseTable.TableView.Visible: states the page's size and membership but not the position of each row; CaseTable.PageSlice states the positions.
- EditProfile.ProfileForm.FetchProfile: without a truthy user id, loading stays true, as the code leaves it.
- Row clicks and "update" buttons navigate to other pages; those routes are not modelled.
- The Sheha dashboard has no map and no gender chart; the shared module's markers and gender pie belong to the supervisor page only.
- src/pages/CaseDetails.jsx is not part of this model. Its role check spells "HealthSupervisor", while UpdatePatient spells "Health Supervisor"; UpdatePatient.UnspacedSupervisorUnprefixed shows the effect of the unspaced spelling on the patient editor.
- Console logging is left out.
