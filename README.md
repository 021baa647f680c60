# Complaint helpdesk: a verified model of its core

The helpdesk lets students file complaints and lets administrators move those complaints
between four statuses, adding notes as they go. This project models the helpdesk's core
rules in Dafny and proves what those rules promise. It covers the two back-end implementations:

- the Express routers for `/complaints` and `/users`;
- the browser client's complaint service over the hosted store.

It also covers the logic of the student and admin dashboards, the filter panel, the
route guard, and the shared enumerations.

The modules follow the program's files:

| file | module | models |
|---|---|---|
| `complaint_types.dfy` | `ComplaintTypes` | `src/types/complaint.ts`: the priority and status unions, the option lists, the categories, the `Complaint` record and the filter set |
| `store.dfy` | `Store` | the `users` and `complaints` tables as maps in a `Db` object, with their integrity invariant, and the `ORDER BY created_at DESC` selection (a loop that picks rows in any order and inserts each in place) |
| `complaints_route.dfy` | `ComplaintsRoute` | `backend/routes/complaints.js`: the role-scoped listing, validated creation and validated status changes, with their 400/403/404/500 answers |
| `users_route.dfy` | `UsersRoute` | `backend/routes/users.js`: profile lookup, and the profile update that pushes `SET` clauses and bound values step by step before executing them |
| `complaint_service.dfy` | `ComplaintService` | `src/services/complaintService.ts`: insert, two ordered queries and status update on the hosted store, plus the row-to-record mapping |
| `complaint_filters.dfy` | `FilterPanel` | `src/components/ComplaintFilters.tsx`: editing one filter key, clearing all keys, and whether any filter is in force |
| `complaint_list.dfy` | `ComplaintList` | the filter effect and status counts that both dashboards repeat |
| `student_dashboard.dfy` | `StudentDashboardPage` | `src/pages/StudentDashboard.tsx`, as a class whose methods update the page state |
| `admin_dashboard.dfy` | `AdminDashboardPage` | `src/pages/AdminDashboard.tsx`, as a class: replacing complaints by id, quick filters, statistics |
| `app.dfy` | `AppRouting` | `src/App.tsx`: the `ProtectedRoute` decision and the route table |
| `scenario.dfy` | `Scenario` | a walk through the back end: a student files a WiFi complaint and an admin resolves it with a note |
| `text.dfy`, `seqs.dfy`, `wrappers.dfy`, `http.dfy` | helpers | the library behaviour the handlers rely on, such as `trim`, `toLowerCase`, `includes`, `Array.prototype.filter` and the validator's length count; also option and result types and response shapes |

Modelling choices that shape the contracts:

- **Trimming happens in place.** The validator's `trim()` rewrites the request body. The
  back end therefore stores the trimmed title, description and notes.
- **Validator length.** `isLength` counts code points and skips the variation selectors
  U+FE0E and U+FE0F, so `CountedLength` does the same.
- **Error order.** Each handler checks the body first, the role second and the store last.
  An invalid body therefore gets 400 even from the wrong role.
- **Two joins.** The back end joins users with an inner join, so a complaint whose
  student has no user row is dropped from the listing. The hosted store uses a left
  join, so the same complaint appears with the name `Unknown`.
- **Two kinds of status update.**
  - Back end: notes that are missing or blank after trimming overwrite the stored notes with NULL.
  - Hosted store: missing notes are left out of the update, so the stored notes stay.
- **The foreign key.** Every complaint belongs to an existing user; this is part of
  `Db.Valid`. A creation by a caller who has no user row fails:
  - the back end answers 500;
  - the service returns a `ForeignKeyViolation` failure;
  - in both cases nothing is written.
- **Dashboard filtering.** The filter effect narrows the list by search, category,
  priority and status in turn. `ComplaintList.FilterComplaints` proves that the result is
  the loaded list filtered once by the conjunction of the filters in force. The student
  search reads the title and description; the admin search also reads the student's name.

## Model

| member | source | states |
|---|---|---|
| ComplaintTypes.ParsePriority | src/types/complaint.ts:6 | a text is a priority exactly when it is one of low, medium, high, urgent, and it maps back to that text |
| ComplaintTypes.ParseStatus | src/types/complaint.ts:7 | a text is a status exactly when it is one of pending, in-progress, resolved, rejected, and it maps back to that text |
| ComplaintTypes.PriorityRoundTrip | src/types/complaint.ts:6 | each priority's text reads back as that priority |
| ComplaintTypes.StatusRoundTrip | src/types/complaint.ts:7 | each status's text reads back as that status |
| ComplaintTypes.CategoriesAreNineDistinct | src/types/complaint.ts:22-32 | there are nine categories, all different, and the last is Other |
| ComplaintTypes.PriorityLevelsMatchUnion | src/types/complaint.ts:34-39 | the priority options are low, medium, high, urgent in that order, they cover the union, and their values are distinct |
| ComplaintTypes.StatusOptionsMatchUnion | src/types/complaint.ts:41-46 | the status options are pending, in-progress, resolved, rejected in that order, they cover the union, and their values are distinct |
| Text.TrimEnds | backend/routes/complaints.js:37-38 | a trimmed text has no white space at either end, and it is empty exactly when the input was all white space |
| Text.TrimIdempotent | backend/routes/complaints.js:37-38 | trimming a trimmed text changes nothing |
| Text.TrimKeeps | backend/routes/complaints.js:37-38 | a text with no white space at either end is its own trimming |
| Text.CountedLength | backend/routes/complaints.js:37-38 | the validator's count is at most the length, and equals it when no variation selector occurs |
| Text.Trim | backend/routes/complaints.js:37-38 | the trimmed text is a contiguous piece of the input, no longer than it, with no white space at either end |
| Text.Lower | src/pages/StudentDashboard.tsx:49-50 | lowering keeps the length and maps every character to its lower-case form, with no capital letter left |
| Text.Includes | src/pages/StudentDashboard.tsx:49-50 | the empty text occurs in every text, and a text only occurs in one at least as long |
| Text.IncludesOccurrence | src/pages/StudentDashboard.tsx:49-50 | `includes` holds exactly when the part starts at some offset of the text |
| Text.IncludesLower | src/pages/StudentDashboard.tsx:49-50 | an occurrence survives lowering both texts, so a search finds text whatever its case |
| Seqs.Keep | src/pages/StudentDashboard.tsx:48-63 | a filter keeps exactly the elements that satisfy the test |
| Seqs.KeepIsSubsequence | src/pages/StudentDashboard.tsx:45-66 | a filtered list is an order-preserving subsequence of its input |
| Seqs.KeepThen | src/pages/StudentDashboard.tsx:54-64 | two filters in a row keep what one filter by their conjunction keeps |
| Seqs.KeepAll | src/pages/StudentDashboard.tsx:45-66 | a filter whose test always holds returns its input |
| Seqs.KeepExclusiveCount | src/pages/StudentDashboard.tsx:97-110 | three counts by mutually exclusive tests add up to at most the length |
| Store.Selected | backend/routes/complaints.js:11-21 | the selected rows are exactly the table's rows that satisfy the condition |
| Store.InsertNewest | backend/routes/complaints.js:23 | inserting a row into a newest-first list keeps it newest first and adds exactly that row |
| Store.SelectNewestFirst | backend/routes/complaints.js:23-25 | the result is newest first and holds every selected row exactly once, as a permutation of the selection |
| ComplaintsRoute.CreateErrors | backend/routes/complaints.js:37-45 | there are no errors exactly when the body is acceptable. Each message appears exactly when its check fails: trimmed title under 5, trimmed description under 10, empty category, unknown priority. Any non-empty category passes |
| ComplaintsRoute.NewRow | backend/routes/complaints.js:52-57 | the inserted row has the caller as owner, the trimmed title and description, the category and priority as sent, status pending and no notes |
| ComplaintsRoute.StoredNotes | backend/routes/complaints.js:81-98 | stored notes are the trimmed notes; notes that are missing or blank are stored as NULL |
| ComplaintsRoute.Join | backend/routes/complaints.js:11-15 | the joined row is the complaint row unchanged, carrying its owner's name as stored, even an empty one |
| ComplaintsRoute.Revised | backend/routes/complaints.js:96-99 | the update sets status, notes and update time, and leaves every other column as it was |
| ComplaintsRoute.ListComplaints | backend/routes/complaints.js:9-27 | 200 with rows newest first and without repeats. A student sees only their own complaints; every complaint whose student exists appears, with that student's name |
| ComplaintsRoute.CreateComplaint | backend/routes/complaints.js:35-70 | an invalid body gets 400 with all its errors, from any caller. A valid body from a non-student gets 403. A student without a user row gets 500. All three leave the store unchanged. Otherwise exactly one row is inserted under a fresh id and 201 is returned |
| ComplaintsRoute.UpdateStatus | backend/routes/complaints.js:78-116 | an unknown status gets 400, a non-admin 403 and an unknown id 404, all with the store unchanged. Otherwise only that row changes, to the new status and stored notes, and the answer is 200 |
| ComplaintsRoute.AnyStatusReachable | backend/routes/complaints.js:80-99 | any status can be set from any row, and only status, notes and update time move |
| ComplaintsRoute.TitleBoundary | backend/routes/complaints.js:37 | a trimmed title of 4 counted characters is refused; one of 5 is accepted |
| ComplaintsRoute.DescriptionBoundary | backend/routes/complaints.js:38 | a trimmed description of 9 counted characters is refused; one of 10 is accepted |
| UsersRoute.ProfileForgetsOnlyUpdateTime | backend/routes/users.js:11-20 | the returned profile leaves out only the update time: rows with the same profile differ at most there, and changing it leaves the profile as it was |
| UsersRoute.Placeholders | backend/routes/users.js:57-62 | the count of `?` placeholders is at most the number of clauses, and equal exactly when every clause binds a value |
| UsersRoute.Apply | backend/routes/users.js:60-63 | applying a `SET` list never changes the id or role, and leaves every column the list does not name as it was |
| UsersRoute.ExecuteUpdate | backend/routes/users.js:57-67 | the table keeps the same ids, and every row but the bound id stays. 1 row is affected exactly when that id exists, and never more than 1. The affected row keeps its id and role and takes the `SET` list. Callers must bind one value per placeholder plus the id |
| UsersRoute.GetProfile | backend/routes/users.js:9-20 | 404 when the caller has no row, otherwise 200 with that row's profile |
| UsersRoute.FieldClausesShape | backend/routes/users.js:40-51 | the pushed clauses bind one value each, and name the name and student-id columns exactly when those fields are written |
| UsersRoute.ApplyAssembled | backend/routes/users.js:43-63 | the assembled statement writes the supplied name, the student id and the update time, and nothing else |
| UsersRoute.WrittenName | backend/routes/users.js:43-46 | a name is written exactly when one was supplied and is not blank after trimming |
| UsersRoute.WrittenStudentId | backend/routes/users.js:48-51 | a student id is written exactly when one was supplied, is not blank after trimming, and the caller is a student |
| UsersRoute.ExecuteAssembled | backend/routes/users.js:57-67 | the assembled statement, with the caller's id bound last, rewrites only the caller's row as supplied and affects 1 row, or affects 0 rows and changes nothing when the caller has no row |
| UsersRoute.AssembleUpdates | backend/routes/users.js:40-51 | clauses and values are pushed in step, one value per clause. Only the name and student-id columns are named, never email or role. The list is empty exactly when nothing is written |
| UsersRoute.UpdateProfile | backend/routes/users.js:28-78 | a short name gets 400, nothing to write gets 400, and an unknown caller gets 404, all with nothing written. Otherwise only the caller's row changes, and the answer is 200 with the new profile |
| ComplaintService.StudentName | src/services/complaintService.ts:38 | the name is never empty: it is the joined user's name, or `Unknown` when there is no user or the name is empty |
| ComplaintService.Notes | src/services/complaintService.ts:41 | NULL and empty notes become absent; other notes pass through unchanged |
| ComplaintService.ToComplaint | src/services/complaintService.ts:30-42 | every column is copied to its field, the student name is defaulted, and empty notes are dropped |
| ComplaintService.ToComplaintForgetsOnlyEmptyNotes | src/services/complaintService.ts:30-42 | two rows that map to the same record differ at most in NULL versus empty notes |
| ComplaintService.SelectComplaints | src/services/complaintService.ts:72-95 | every kept row appears exactly once, mapped, newest first, with distinct ids, even when its student has no name |
| ComplaintService.CreateComplaint | src/services/complaintService.ts:5-42 | the status is always pending, and the fields are copied unchanged under a fresh id. An unknown student fails the foreign key and nothing is written |
| ComplaintService.GetComplaintsByStudent | src/services/complaintService.ts:45-69 | returns only that student's complaints, all of them, newest first, each once |
| ComplaintService.GetAllComplaints | src/services/complaintService.ts:72-95 | returns every complaint, newest first, each once |
| ComplaintService.UpdateComplaintStatus | src/services/complaintService.ts:98-131 | only the row with that id changes: its status, its notes (when supplied) and its update time. An unknown status or an unknown id fails, and nothing is written |
| ComplaintService.CreateThenFetch | src/services/complaintService.ts:5-69 | a create succeeds exactly when the student exists. The student's complaints then include the created record, with the request's title, description, category, priority and student, status pending, and the creator's display name |
| FilterPanel.HandleFilterChange | src/components/ComplaintFilters.tsx:11-16 | the key takes a non-empty value or is cleared by the empty string, and every other key keeps its value |
| FilterPanel.ClearFilters | src/components/ComplaintFilters.tsx:18-20 | every key is absent afterwards |
| FilterPanel.HasActiveFilters | src/components/ComplaintFilters.tsx:22 | a filter is in force exactly when some key holds a non-empty value |
| FilterPanel.ClearedIsInactive | src/components/ComplaintFilters.tsx:18-22 | after a clear, no filter is in force |
| FilterPanel.ChangeActivates | src/components/ComplaintFilters.tsx:11-22 | setting a key to a non-empty value puts a filter in force |
| FilterPanel.ClearingLastKeyDeactivates | src/components/ComplaintFilters.tsx:11-22 | clearing the only key in force leaves no filter in force |
| FilterPanel.LastChangeWins | src/components/ComplaintFilters.tsx:11-16 | of two changes to the same key, only the later one shows |
| FilterPanel.ChangesCommute | src/components/ComplaintFilters.tsx:11-16 | changes to different keys can be made in either order |
| ComplaintList.Narrow | src/pages/StudentDashboard.tsx:47-64 | one step of the effect: a list of the complaints passing the earlier filters becomes the list of those also passing this step's filter when it is in force, and stays when it is not |
| ComplaintList.FilterComplaints | src/pages/StudentDashboard.tsx:44-67 | the successive narrowing equals one filter by the conjunction of the filters in force. It is an order-preserving subsequence holding exactly the matching complaints |
| ComplaintList.NoFilterShowsAll | src/pages/StudentDashboard.tsx:45-66 | with no filter in force, the shown list is the loaded list |
| ComplaintList.CountStatus | src/pages/StudentDashboard.tsx:98 | a status count never exceeds the number of complaints |
| ComplaintList.StatusCountsWithinTotal | src/pages/StudentDashboard.tsx:89-114 | the pending, in-progress and resolved counts together never exceed the total |
| StudentDashboardPage.StatsOf | src/pages/StudentDashboard.tsx:89-114 | the four cards are the total and the three status counts, each at most the total, and the three together at most the total |
| StudentDashboardPage.StudentSearch | src/pages/StudentDashboard.tsx:47-52 | the search finds a complaint whose title or description holds the search text verbatim, in any case; the empty search finds everything; a match needs a title or description at least as long as the search |
| StudentDashboardPage.StudentDashboard.Load | src/pages/StudentDashboard.tsx:24-41 | with no user, nothing changes and the spinner stays. Otherwise each entry is the mapped store row of one of the student's complaints, every such complaint appears, ids are distinct, the order is newest first, and loading ends |
| StudentDashboardPage.StudentDashboard.ApplyFilters | src/pages/StudentDashboard.tsx:44-67 | the shown list is the loaded list filtered by every filter in force, in order, with the search reading the title and description only. No filter shows everything |
| StudentDashboardPage.StudentDashboard.SetFilters | src/pages/StudentDashboard.tsx:277-279 | the filter set becomes the one the panel hands over |
| StudentDashboardPage.StudentDashboard.SubmitComplaint | src/pages/StudentDashboard.tsx:69-87 | an empty required field (category, title, description) or no user changes nothing. On success the store holds exactly one new row under a fresh id, pending, with the form's fields. The record mapped from that row goes in front of the unchanged earlier entries, and the form resets to empty text with priority medium and is hidden. On failure the page and the store are unchanged |
| StudentDashboardPage.StudentDashboard.Stats | src/pages/StudentDashboard.tsx:89-114 | the cards show the loaded list's total and its pending, in-progress and resolved counts, which add up to at most the total |
| AdminDashboardPage.ReplaceById | src/pages/AdminDashboard.tsx:69-73 | the length is unchanged, every entry with the id becomes the returned record, and every other entry stays |
| AdminDashboardPage.AdminSearch | src/pages/AdminDashboard.tsx:38-44 | the search finds a complaint whose title, description or student name holds the search text verbatim, in any case; the empty search finds everything |
| AdminDashboardPage.ReplaceAbsentId | src/pages/AdminDashboard.tsx:69-73 | a list without that id is left as it is |
| AdminDashboardPage.ReplaceIdempotent | src/pages/AdminDashboard.tsx:69-73 | replacing twice with the same record is replacing once |
| AdminDashboardPage.StudentIds | src/pages/AdminDashboard.tsx:107 | the set holds exactly the student ids that occur in the list |
| AdminDashboardPage.ActiveStudentsWithinTotal | src/pages/AdminDashboard.tsx:107 | there are never more distinct students than complaints |
| AdminDashboardPage.ResolutionRate | src/pages/AdminDashboard.tsx:113 | the rate is 0 for an empty list, lies within 0..100, and is the whole percentage nearest the resolved share, with halves rounded up |
| AdminDashboardPage.RoundedPercent | src/pages/AdminDashboard.tsx:113 | rounding a share of at most one whole gives a percentage within 0..100 and within half a point of the exact value |
| AdminDashboardPage.StatsOf | src/pages/AdminDashboard.tsx:80-117 | the six cards: counts bounded by the total, active students at most the total, and a rate within 0..100 that is 0 for no complaints |
| AdminDashboardPage.QuickFilter | src/pages/AdminDashboard.tsx:184-206 | each button replaces the whole filter set with one key (pending, in-progress or urgent) or with nothing, and only All Complaints leaves no filter in force |
| AdminDashboardPage.ButtonCount | src/pages/AdminDashboard.tsx:184-206 | every button but All Complaints shows a count, and no count exceeds the number of complaints |
| AdminDashboardPage.ButtonCountIsListLength | src/pages/AdminDashboard.tsx:184-206 | the count in a button's caption is the number of complaints listed after pressing it, and All Complaints lists everything |
| AdminDashboardPage.AdminDashboard.Load | src/pages/AdminDashboard.tsx:17-32 | the list is every complaint, mapped, newest first, each once, and loading ends |
| AdminDashboardPage.AdminDashboard.ApplyFilters | src/pages/AdminDashboard.tsx:35-59 | the shown list is the loaded list filtered by every filter in force, in order, with the search also reading the student's name. No filter shows everything |
| AdminDashboardPage.AdminDashboard.PressQuickFilter | src/pages/AdminDashboard.tsx:184-206 | the filter set becomes the button's set |
| AdminDashboardPage.AdminDashboard.SetFilters | src/pages/AdminDashboard.tsx:176-178 | the filter set becomes the one the panel hands over |
| AdminDashboardPage.AdminDashboard.HandleStatusChange | src/pages/AdminDashboard.tsx:61-78 | on success the store changes only that row: its new status, its notes when given, and its update time. Users and the next id stay. The list becomes the old list with the entries of that id replaced by the mapped row, which carries the new status; length and other entries stay. On failure (unknown status or id) the list and the store are unchanged |
| AdminDashboardPage.AdminDashboard.Stats | src/pages/AdminDashboard.tsx:80-117 | the six cards of the loaded list: total and status counts adding up to at most the total, active students at most the total, a rate within 0..100 that is 0 for no complaints |
| AppRouting.RoleOf | src/App.tsx:29 | a missing role counts as the empty text |
| AppRouting.ProtectedRoute | src/App.tsx:11-34 | the spinner exactly while loading. Otherwise a redirect to /login exactly when signed out, a redirect to / exactly when the role is not allowed, and the page exactly when signed in with an allowed role or no role list |
| AppRouting.HomeOf | src/App.tsx:46-50 | an admin is sent to /admin, anyone else to /student |
| AppRouting.AppRoutes | src/App.tsx:36-72 | / shows the landing page. /login and /register redirect exactly when signed in, to the caller's home. Any unmatched path redirects to / |
| AppRouting.AdminPageOnlyForAdmins | src/App.tsx:60-67 | the admin page is shown exactly to a signed-in admin after loading |
| AppRouting.StudentPageOnlyForStudents | src/App.tsx:52-59 | the student page is shown exactly to a signed-in student after loading |
| AppRouting.RedirectsSettle | src/App.tsx:25-68 | from any path, at most two redirects reach the spinner or a page, and a page once loading is over |
| Scenario.PlainBodyAccepted | backend/routes/complaints.js:37-40 | a body whose title and description have no white space at either end, no variation selector and enough characters, with a category and a known priority, passes validation |
| Scenario.WifiBodyAccepted | backend/routes/complaints.js:37-40 | the WiFi complaint body passes every check |
| Scenario.WifiNotesStored | backend/routes/complaints.js:81-98 | the note "Router replaced" is stored as written |
| Scenario.ComplaintResolved | backend/routes/complaints.js:35-116 | a student's accepted complaint is created with 201 and status pending. The admin's resolved with a note then answers 200, and the row shows the new status and the note |

## Left out

- `src/pages/Landing.tsx`, `src/components/ComplaintCard.tsx`, `src/services/apiService.ts`, `src/services/authService.ts` and `src/types/database.ts` are not part of this model: they hold markup, I/O plumbing over `fetch`, `localStorage` and the hosted client, or type declarations that repeat the enumerations.
- The authentication middleware is not part of this model. The caller arrives as a given user id and role.
- The database driver, the SQL text and the schema are not part of this model. The tables are maps. The column defaults are assumed: status pending, notes NULL, and both timestamps set to the insertion time.
- Timestamps are integers supplied by the caller (`now`) instead of `NOW()` or `new Date()`.
- Failures of the store or the network, other than the foreign key, the enumerated status and the single-row check, are not modelled. So the `catch` paths that answer 500, log to the console or raise `alert` are not modelled, apart from the foreign-key case.
- Query results with equal creation times come back in an unspecified order, so the model chooses among them nondeterministically.
- The `:id` path parameter and all ids are natural numbers; a non-numeric id text is not modelled.
- Request bodies hold text only. Non-string JSON values, `null` for an optional field, and the validator's type coercion are not modelled. An absent create field behaves as the empty string.
- ComplaintService.UpdateComplaintStatus: the refusal of a status outside the four relies on the `status` column's enumerated type in the hosted store; the schema is not part of this model, so that refusal is assumed.
- StudentDashboardPage.StudentDashboard.SubmitComplaint: of the browser's form validation only the `required` check (StudentDashboard.tsx:195, 234, 249) is modelled, as "not the empty string"; a field holding only white space passes it, as in the browser.
- Text.Lower: lowers ASCII letters only; `toLowerCase` also lowers letters outside ASCII.
- Text.Trim: removes the ECMAScript white-space and line-terminator characters; Unicode property lookups beyond that list are not modelled.
- AdminDashboardPage.ResolutionRate: computed in exact integer arithmetic, not floating point. A float rounding at an exact half is not modelled.
- AppRouting.AppRoutes: paths match exactly. The router's case-insensitive matching and trailing-slash tolerance are not modelled.
- React effect scheduling is not modelled: `ApplyFilters` and `Load` are methods run explicitly after a state change.
- The form's per-field `onChange` setters and the show/hide toggle of the form are not modelled; the model keeps only the form's state and its reset.
- Concurrent requests and their last-write-wins races are not modelled. Each method runs alone.
