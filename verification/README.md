# Smart Haryana civic-issue backend, modelled in Dafny

Smart Haryana is the FastAPI backend of a civic-issue reporting app for the
state of Haryana. Citizens (clients) report issues such as potholes or
broken street lights with a photo and a GPS position. Each new issue gets a
priority score from how many pending issues are nearby and how urgent its
type is. A periodic job assigns the highest-priority pending issue to the
least-loaded active worker of the matching department in the issue's
district. The worker completes it on site, within a GPS radius, with a
proof photo. The reporter then verifies the work and leaves feedback.

District admins create departments and workers. A super admin creates and
deactivates district admins. Fraud and duplicate-photo heuristics score
suspicious reports. A multi-agent chatbot answers questions; it routes each
message to a knowledge-base agent, a statistics agent, a web-search agent or
a general language-model agent.

The model keeps the database as one sequence per table. A row's id is its
index, since no row is ever deleted in the core. Every endpoint is a pure
function from the state and the request to either an HTTP error, with the
state unchanged, or the new state and the response. FastAPI's order is kept:
the authentication dependencies (401/403) run first, then body validation
(422), then the handler's own checks, in the order the handler runs them.
External services are parameters, and the relevant modules say which:

- the language model, the vector store and the search API are functions
  that return `None` when the call raises;
- the PostGIS 500 m test and the distances are inputs;
- the image readings are inputs;
- bcrypt is modelled as an injective `Bcrypt(secret)`;
- the `EmailStr` address check is a function that returns the normalised address, or `None` for an invalid one;
- a JWT is modelled as the claims it decodes to.

Modules, one per source component:

- `Common` and `Strings`: Option/Result, string helpers, ASCII case folding, strip and split.
- `Models`: the tables, their row constructors, lookups and the declared constraints.
- `Config`: the settings validators and the comma-separated list properties.
- `Auth`: password strength, hashing, the current-user dependency, registration and login.
- `Schemas`: the request bodies' validators.
- `Priority`: the priority score.
- `Like`: the `ILIKE` matcher used by department lookups.
- `Assignment` and `Scheduler`: the auto-assignment run and the daily jobs.
- `Storage`: the upload's filename sanitising and acceptance.
- `UserRoutes`, `AdminRoutes`, `SuperAdminRoutes` and `WorkerRoutes`: the routers.
- `Duplicates` and `Fraud`: the duplicate-photo and fraud heuristics.
- `Seeding`: the admin and department seeding.
- `Agent`, `RagAgent`, `AnalyticsAgent`, `WebSearchAgent`, `GeminiAgent` and `Chatbot`: the chatbot.

## Model

| member | source | states |
|---|---|---|
| Models.ParseStatus | backend/civic_issues_backend/app/models.py:18-22 | a value reads back as a status only when it is exactly that status's value string |
| Models.StatusRoundTrip | backend/civic_issues_backend/app/models.py:18-22 | every status has a distinct value string that reads back as itself |
| Models.ParseStatusLabel | backend/civic_issues_backend/app/models.py:73 | a literal casts to the status enum type only when it is exactly a status's database label, the member name |
| Models.StatusLabelRoundTrip | backend/civic_issues_backend/app/models.py:73 | every label casts back to its status, and no lower-case value such as "pending" is a label |
| Models.NewUser | backend/civic_issues_backend/app/models.py:37-41 | a new user row is active, with the given role and email |
| Models.NewWorkerProfile | backend/civic_issues_backend/app/models.py:56-58 | a new worker profile starts with a daily task count of 0 |
| Models.NewProblem | backend/civic_issues_backend/app/models.py:72-77 | a new problem is pending, has priority 0.0 and no assigned worker |
| Models.FindUserByEmail | backend/civic_issues_backend/app/routers/auth.py:16-17 | the lookup finds a user with exactly that email, the first one, and None only when nobody has it |
| Models.FindWorkerOfUser | backend/civic_issues_backend/app/models.py:56 | the lookup finds the first profile of that user, and None only when the user has none |
| Models.FindUserByEmailUnique | backend/civic_issues_backend/app/models.py:35 | with the UNIQUE email constraint, the lookup returns the one user who has the email |
| Models.FindWorkerOfUserUnique | backend/civic_issues_backend/app/models.py:56 | with the UNIQUE user_id constraint, the lookup returns the one profile of the user |
| Config.ValidateSecretKey | backend/civic_issues_backend/app/config.py:54-59 | the key loads unchanged if and only if it has at least 32 characters |
| Config.ValidateDatabaseUrl | backend/civic_issues_backend/app/config.py:61-66 | the URL loads unchanged if and only if it is non-empty and starts with "postgresql" |
| Config.ValidateGoogleApiKey | backend/civic_issues_backend/app/config.py:68-73 | the key is never rejected and loads unchanged; a warning is printed exactly for a key shorter than 20 characters |
| Config.AllowedOriginsList | backend/civic_issues_backend/app/config.py:75-77 | the list has one stripped element per comma-separated piece of the setting |
| Config.AllowedFileTypesList | backend/civic_issues_backend/app/config.py:79-81 | the list has one stripped element per comma-separated piece of the setting |
| Config.StripEachJoin | backend/civic_issues_backend/app/config.py:75-81 | when the pieces carry no surrounding blanks, joining the list with commas gives the setting back |
| Config.ListElementsClean | backend/civic_issues_backend/app/config.py:79-81 | no element of a list setting has surrounding whitespace or a comma |
| Auth.PasswordFaultOf | backend/civic_issues_backend/app/utils.py:27-55 | no fault exactly when the password meets all five rules; otherwise the first rule broken in the checking order |
| Auth.ValidatePasswordStrength | backend/civic_issues_backend/app/utils.py:18-55 | a 400 exactly for a password that breaks a rule, naming the first one; success exactly for a strong password |
| Auth.GetPasswordHash | backend/civic_issues_backend/app/utils.py:60-62 | a hash comes back if and only if the password is strong, and it verifies that password |
| Auth.HashVerifiesOnlyItsPassword | backend/civic_issues_backend/app/utils.py:57-62 | a stored hash verifies exactly the password it was made from |
| Auth.GetCurrentUser | backend/civic_issues_backend/app/utils.py:74-92 | the id of an active user whose email is the token's subject, or 401 for a bad token, a missing subject, an unknown or an inactive user |
| Auth.RegisterClientUser | backend/civic_issues_backend/app/routers/auth.py:11-34 | a taken email gives 400 and a weak password gives 400; otherwise exactly one active CLIENT is appended with the body's fields and a hash of the password |
| Auth.RegisterKeepsUniqueEmails | backend/civic_issues_backend/app/routers/auth.py:16-20 | registration keeps emails unique |
| Auth.Login | backend/civic_issues_backend/app/routers/auth.py:36-55 | a token whose subject is the email exactly when the user exists, is active and the password verifies; 401 otherwise |
| Auth.LoginThenCurrentUser | backend/civic_issues_backend/app/routers/auth.py:54 | the token a login issues authenticates the same user on later requests |
| Auth.RegisterThenLogin | backend/civic_issues_backend/app/routers/auth.py:22-29 | a freshly registered client can log in with the password they chose |
| Priority.Density | backend/civic_issues_backend/app/services/priority.py:76 | the density score lies between 0 and 10, is the count itself below 10, and is 10 from 10 nearby issues on |
| Priority.DensityMonotone | backend/civic_issues_backend/app/services/priority.py:76 | more nearby pending issues never lower the density score |
| Priority.Urgency | backend/civic_issues_backend/app/services/priority.py:79-80 | the table entry for the lower-cased type, or the default when the type is absent; always between 4 and 9 |
| Priority.UrgencyIgnoresCase | backend/civic_issues_backend/app/services/priority.py:79-80 | two spellings of a type that differ only in case get the same urgency |
| Priority.UrgencyOfCapitalized | backend/civic_issues_backend/app/routers/users.py:64 | capitalising the type before scoring, as the issue route does, never changes the urgency |
| Priority.Round2 | backend/civic_issues_backend/app/services/priority.py:88 | the result is within half a hundredth of the input and is a whole number of hundredths |
| Priority.Round2Monotone | backend/civic_issues_backend/app/services/priority.py:88 | rounding to two decimals preserves order |
| Priority.Round2Exact | backend/civic_issues_backend/app/services/priority.py:88 | a value that already has two decimals is unchanged by rounding |
| Priority.PriorityScore | backend/civic_issues_backend/app/services/priority.py:76-101 | within half a hundredth of the weighted sum after a successful count, and of the urgency term alone after a failed query |
| Priority.FallbackIsZeroDensity | backend/civic_issues_backend/app/services/priority.py:97-101 | a failed spatial query scores exactly like a neighbourhood with no pending issues |
| Priority.RawPriorityBounds | backend/civic_issues_backend/app/services/priority.py:76-86 | with the default weights the unrounded score lies between 1.6 and 9.6 |
| Priority.PriorityScoreBounds | backend/civic_issues_backend/app/services/priority.py:83-88 | with the default weights the stored score lies between 1.6 and 9.6, inside the promised 0 to 10 scale |
| Priority.PriorityMonotoneInDensity | backend/civic_issues_backend/app/services/priority.py:76-88 | with non-negative weights, more nearby issues never lower the score |
| Priority.CountNearby | backend/civic_issues_backend/app/services/priority.py:61-72 | the count equals the size of the set of rows with the status that lie within 500 m |
| Priority.SpatialQuery | backend/civic_issues_backend/app/services/priority.py:61-72 | the query fails exactly when the status literal is no label of the enum type, and otherwise counts the nearby rows with that status |
| Priority.SpatialQueryAsWritten | backend/civic_issues_backend/app/services/priority.py:61-72 | the literal 'pending' as written makes the query fail on every table |
| Priority.AsWrittenScoreIgnoresNeighbours | backend/civic_issues_backend/app/services/priority.py:61-101 | as written, every report scores like one with no pending issue nearby |
| Priority.PendingNearby | backend/civic_issues_backend/app/services/priority.py:61-72 | the corrected query counts exactly the pending issues within 500 m, the new issue included |
| Priority.PendingNearbyAppend | backend/civic_issues_backend/app/services/priority.py:61-72 | with the corrected query, one more row raises the count by one exactly when it is pending and nearby |
| Like.SubstringPattern | backend/civic_issues_backend/app/services/auto_assignment.py:55 | the pattern is the name wrapped in two percent signs |
| Like.SubstringPatternMeansContains | backend/civic_issues_backend/app/services/auto_assignment.py:54-56 | for a name without wildcards, `ILIKE '%name%'` holds if and only if the name occurs in the text, ignoring case |
| Like.PlainMeansEqualIgnoringCase | backend/civic_issues_backend/app/routers/admin.py:21 | a pattern without wildcards matches exactly the texts equal to it, ignoring case |
| Assignment.TopPending | backend/civic_issues_backend/app/services/auto_assignment.py:28-31 | None exactly when no issue is pending; otherwise a pending issue whose priority no other pending issue exceeds |
| Assignment.DepartmentName | backend/civic_issues_backend/app/services/auto_assignment.py:37-52 | the mapped department of the lower-cased type, or the type itself when it is unmapped |
| Assignment.MappedNamesAreDefaults | backend/civic_issues_backend/app/services/auto_assignment.py:37-47 | every mapped department name is one of the seeded default departments |
| Assignment.MatchingDepartments | backend/civic_issues_backend/app/services/auto_assignment.py:54-56 | exactly the ids of the departments whose name the pattern matches, in id order |
| Assignment.LookupDepartment | backend/civic_issues_backend/app/services/auto_assignment.py:54-64 | no department when nothing matches, the one department when exactly one matches, and the raising case exactly when two or more match |
| Assignment.LeastLoadedUpTo | backend/civic_issues_backend/app/services/auto_assignment.py:67-76 | an eligible profile among the first n with the lowest counter, or None when none is eligible |
| Assignment.LeastLoaded | backend/civic_issues_backend/app/services/auto_assignment.py:67-76 | None exactly when no profile qualifies; otherwise a qualifying profile whose counter is not above any other qualifying one |
| Assignment.Delivered | backend/civic_issues_backend/app/services/auto_assignment.py:98-108 | a prefix of the messages in order, and all of them when every send succeeds |
| Assignment.TriggerAutoAssignment | backend/civic_issues_backend/app/services/auto_assignment.py:11-112 | no-pending exactly when nothing is pending; the top pending issue's department lookup decides the outcome: none or several matches end the run, and a unique match places the issue exactly when some eligible worker exists; an unplaced run leaves the state unchanged and sends nothing; a placement assigns that issue, changes only it and the chosen worker's counter, and delivers the two notices |
| Assignment.TriggerAutoAssignmentAsWritten | backend/civic_issues_backend/app/services/auto_assignment.py:90-112 | the same state and outcome as the intended run, but no notice is ever sent |
| Assignment.PlacementNotifiesWorkerAndReporter | backend/civic_issues_backend/app/services/auto_assignment.py:97-108 | a placement with working delivery notifies the worker, then the reporter; as written it notifies nobody |
| Assignment.AssignedWorkerQualifies | backend/civic_issues_backend/app/services/auto_assignment.py:67-74 | the chosen worker is in the resolved department and the issue's district, is active, had spare capacity and the lowest counter |
| Assignment.BlockedTopBlocksRun | backend/civic_issues_backend/app/services/auto_assignment.py:59-64 | when the top issue cannot be placed, no issue is placed in that run |
| Assignment.DeliveryDoesNotMatter | backend/civic_issues_backend/app/services/auto_assignment.py:90-108 | a failing notification never changes the committed state or the outcome |
| Assignment.RunKeepsCapacity | backend/civic_issues_backend/app/services/auto_assignment.py:70-88 | a run keeps every counter between 0 and the daily maximum |
| Assignment.RunKeepsConsistency | backend/civic_issues_backend/app/services/auto_assignment.py:86-88 | a run keeps the declared table constraints |
| Scheduler.ResetDailyTaskCounts | backend/civic_issues_backend/app/scheduler.py:17-19 | every counter becomes 0 and nothing else in the state changes |
| Scheduler.ResetIdempotent | backend/civic_issues_backend/app/scheduler.py:17-19 | resetting twice is the same as resetting once |
| Scheduler.ResetWithinCapacity | backend/civic_issues_backend/app/scheduler.py:17-19 | after a reset every counter is within any non-negative capacity |
| Scheduler.RunAutoAssignmentJob | backend/civic_issues_backend/app/scheduler.py:28-30 | the job is exactly one assignment run |
| Scheduler.RunJobs | backend/civic_issues_backend/app/scheduler.py:23-30 | over a day of runs the worker's counter grows by exactly the number of tasks those runs gave them |
| Scheduler.RunJobsKeepsCapacity | backend/civic_issues_backend/app/scheduler.py:23-30 | any number of runs keeps every counter within capacity |
| Scheduler.DailyAssignmentsBounded | backend/civic_issues_backend/app/scheduler.py:9-30 | between two midnight resets a worker gets at most MAX_DAILY_TASKS_PER_WORKER tasks, however often the job runs |
| Storage.Basename | backend/civic_issues_backend/app/storage.py:17 | the result contains no slash |
| Storage.KeepOnly | backend/civic_issues_backend/app/storage.py:19 | only characters of `[\w.-]` remain, and a text made of them is unchanged |
| Storage.SanitizeFilename | backend/civic_issues_backend/app/storage.py:12-23 | the result is non-empty, has only kept characters and no slash, and is "file" exactly when nothing was kept |
| Storage.SanitizeIdempotent | backend/civic_issues_backend/app/storage.py:12-23 | sanitising a sanitised name changes nothing |
| Storage.Extension | backend/civic_issues_backend/app/storage.py:43 | a name without a dot has no extension, and an extension never contains a dot |
| Storage.SaveFile | backend/civic_issues_backend/app/storage.py:25-116 | a missing or empty filename is a 400; success holds exactly when the name is given, the extension is allowed, the size is between 1 byte and the maximum and the write works, and yields /uploads/<uuid>.<ext> with a warning exactly for an unexpected content type; any other failure is a 400, or a 500 for a failed write |
| Storage.ContentTypeNeverRejects | backend/civic_issues_backend/app/storage.py:55-63 | the content type changes only the logged warning, never acceptance or the URL |
| Storage.SizeBoundary | backend/civic_issues_backend/app/storage.py:66-81 | a file of exactly the maximum size is accepted, while one byte more or an empty file is refused |
| Storage.UrlCarriesExtension | backend/civic_issues_backend/app/storage.py:84-116 | reading the extension back from the stored URL gives the validated extension |
| Schemas.ValidateTextField | backend/civic_issues_backend/app/schemas.py:123-136 | None passes; a text is refused exactly when its lower-cased form contains a screened pattern, and is otherwise returned stripped |
| Schemas.ScreeningIgnoresCase | backend/civic_issues_backend/app/schemas.py:131-135 | two texts equal up to case are screened alike |
| Schemas.ScriptTagRefused | backend/civic_issues_backend/app/schemas.py:131-135 | any capitalisation of `<script` is refused |
| Schemas.TextFieldIdempotent | backend/civic_issues_backend/app/schemas.py:123-136 | an accepted text passes again unchanged |
| Schemas.ValidateDepartmentNameAsWritten | backend/civic_issues_backend/app/schemas.py:16-25 | the declared rule: length bounds on the raw value, then the character class, then strip |
| Schemas.BlankDepartmentNameAccepted | backend/civic_issues_backend/app/schemas.py:16-25 | the department name "  " passes as written and yields the empty name |
| Schemas.ValidateDepartmentName | backend/civic_issues_backend/app/schemas.py:16-25 | the corrected rule: the bounds hold for the stripped name that is stored |
| Schemas.DepartmentNameRulesAgreeOnTrimmed | backend/civic_issues_backend/app/schemas.py:16-25 | the declared and the corrected rule agree on names without surrounding blanks |
| Schemas.DepartmentNameIdempotent | backend/civic_issues_backend/app/schemas.py:16-25 | an accepted name is accepted again unchanged |
| Schemas.ValidateFullNameAsWritten | backend/civic_issues_backend/app/schemas.py:36-48 | the declared rule: raw-length bounds, the character class, then strip |
| Schemas.BlankFullNameAccepted | backend/civic_issues_backend/app/schemas.py:36-48 | the full name "   " passes as written and yields the empty name |
| Schemas.ValidateFullName | backend/civic_issues_backend/app/schemas.py:36-48 | the corrected rule: the bounds hold for the stored, stripped name |
| Schemas.FullNameRulesAgreeOnTrimmed | backend/civic_issues_backend/app/schemas.py:36-48 | the declared and the corrected rule agree on names without surrounding blanks |
| Schemas.ValidatePincode | backend/civic_issues_backend/app/schemas.py:50-54 | accepted, unchanged, exactly when it is six digits |
| Schemas.ParseUserBase | backend/civic_issues_backend/app/schemas.py:35-54 | accepted exactly when every field passes, the email included; the full name is stored stripped and the email normalised |
| Schemas.InvalidEmailRefused | backend/civic_issues_backend/app/schemas.py:37 | an invalid address makes the body a 422 whatever the other fields hold |
| Schemas.ParseUserCreate | backend/civic_issues_backend/app/schemas.py:56-57 | the validated user fields, with the normalised email, plus a password of at least 8 characters; or 422 |
| Schemas.ValidateComment | backend/civic_issues_backend/app/schemas.py:93-106 | raw length between 5 and 1000, then strip, then screening |
| Schemas.ParseFeedback | backend/civic_issues_backend/app/schemas.py:92-106 | a screened comment and a rating between 1 and 5, or 422 |
| Schemas.ParseProblemBase | backend/civic_issues_backend/app/schemas.py:118-136 | a title of 5 to 200 characters, a description of at most 2000 and a type of 2 to 50, with the texts screened, or 422 |
| Schemas.ValidateChatMessage | backend/civic_issues_backend/app/schemas.py:212-227 | 1 to 2000 raw characters, not blank, screened, returned stripped |
| Schemas.ParseChatRequest | backend/civic_issues_backend/app/schemas.py:211-227 | a valid message and a session id of at most 100 characters, or 422 |
| Schemas.BlankMessageRefused | backend/civic_issues_backend/app/schemas.py:218-220 | a blank message of any length is refused |
| UserRoutes.ChangeUserPassword | backend/civic_issues_backend/app/routers/users.py:23-38 | a new password under 8 characters is a 422 before anything else; then the old password must verify (400) and the new one must be strong (400); only the caller's hash changes |
| UserRoutes.ChangePasswordThenLogin | backend/civic_issues_backend/app/routers/users.py:32-36 | after a change the user logs in with the new password, and with the old one only if the two are the same |
| UserRoutes.StrongPasswordMeetsFieldBound | backend/civic_issues_backend/app/schemas.py:79 | every strong password also meets the body's 8-character bound |
| UserRoutes.CreateIssue | backend/civic_issues_backend/app/routers/users.py:40-87 | only a client may report (else 403); a failed upload returns its error; otherwise one problem row and one initial-photo media row pointing at it are appended, and no other table changes |
| UserRoutes.ReportedProblem | backend/civic_issues_backend/app/routers/users.py:62-77 | the row is pending and unassigned, has the type capitalised, and has the score the type as typed would get |
| UserRoutes.CreateIssueKeepsForeignKeys | backend/civic_issues_backend/app/routers/users.py:63-74 | reporting keeps every foreign key pointing at an existing row |
| UserRoutes.AppendReportKeepsForeignKeys | backend/civic_issues_backend/app/routers/users.py:63-74 | appending an unassigned problem of an existing user and its media row keeps the foreign keys valid |
| UserRoutes.GetIssueById | backend/civic_issues_backend/app/routers/users.py:110-136 | the issue exactly when the caller reported it; 404 for everyone else |
| UserRoutes.CreatedIssueVisibleOnlyToReporter | backend/civic_issues_backend/app/routers/users.py:119-134 | a fresh report is readable by its reporter and by no other user |
| UserRoutes.MyIssues | backend/civic_issues_backend/app/routers/users.py:89-108 | exactly the caller's issues, each once, newest first |
| UserRoutes.MyIssuesAreReadable | backend/civic_issues_backend/app/routers/users.py:97-134 | every listed issue is one the by-id route serves to the same caller |
| UserRoutes.CreateFeedback | backend/civic_issues_backend/app/routers/users.py:138-168 | only the reporter of a completed or verified issue can add feedback; exactly one row is appended |
| UserRoutes.VerifyIssueCompletion | backend/civic_issues_backend/app/routers/users.py:170-194 | only the reporter can verify, and only a completed issue; only its status changes, to verified |
| UserRoutes.VerifyOnce | backend/civic_issues_backend/app/routers/users.py:188-191 | a verified issue cannot be verified again but still takes feedback |
| UserRoutes.UnresolvedIssueRefused | backend/civic_issues_backend/app/routers/users.py:154-155 | a pending or assigned issue takes neither feedback nor verification |
| UserRoutes.CountResolved | backend/civic_issues_backend/app/routers/users.py:203-212 | the number of issues the query's filter keeps: resolved, in scope and, for the recent count, updated within 30 days |
| UserRoutes.CountResolvedAppend | backend/civic_issues_backend/app/routers/users.py:203-211 | a new resolved in-scope issue raises the total by one; any other issue leaves it unchanged |
| UserRoutes.Dashboard | backend/civic_issues_backend/app/routers/users.py:196-218 | the number of resolved issues in scope, and the number of those updated within 30 days |
| UserRoutes.RecentAtMostTotal | backend/civic_issues_backend/app/routers/users.py:203-212 | the recent count never exceeds the total |
| UserRoutes.DistrictAtMostStatewide | backend/civic_issues_backend/app/routers/users.py:203-206 | a district dashboard never counts more than the state-wide one, and an unset district counts nothing |
| UserRoutes.DashboardOrdered | backend/civic_issues_backend/app/routers/users.py:208-217 | the dashboard's two numbers are ordered |
| AdminRoutes.GetCurrentAdminUser | backend/civic_issues_backend/app/routers/admin.py:14-17 | the current user if they are an admin; 403 for any other role |
| AdminRoutes.DepartmentNameIsPlain | backend/civic_issues_backend/app/routers/admin.py:21-22 | a validated department name contains no wildcard or escape character |
| AdminRoutes.ExistenceQueryIgnoresCase | backend/civic_issues_backend/app/routers/admin.py:21-22 | for a validated name the existence query is a case-insensitive comparison with every department |
| AdminRoutes.CreateDepartment | backend/civic_issues_backend/app/routers/admin.py:19-28 | admins only; a name already present up to case is refused; otherwise exactly the capitalised name is appended |
| AdminRoutes.CreateDepartmentKeepsCaselessUnique | backend/civic_issues_backend/app/routers/admin.py:21-24 | departments created through this route never collide up to case |
| AdminRoutes.CreateDepartmentTwiceRefused | backend/civic_issues_backend/app/routers/admin.py:21-24 | a second creation of the same department, in any capitalisation, is refused |
| AdminRoutes.CreateWorker | backend/civic_issues_backend/app/routers/admin.py:30-48 | admins only (else 403), then the body is validated, the email included (else 422), then the checks of AddWorker run on the validated body |
| AdminRoutes.AddWorker | backend/civic_issues_backend/app/routers/admin.py:30-48 | in order: another district gives 403, a taken email 400, an unknown department 404, a weak password 400; otherwise a WORKER user and its profile are appended |
| AdminRoutes.AddWorkerKeepsConsistency | backend/civic_issues_backend/app/routers/admin.py:41-47 | creating a worker keeps the declared table constraints |
| AdminRoutes.NewWorkerIsEligible | backend/civic_issues_backend/app/routers/admin.py:41-47 | a new worker is a candidate for assignments of their department in the admin's district |
| AdminRoutes.DeactivateWorker | backend/civic_issues_backend/app/routers/admin.py:50-58 | admins only; the worker must exist in the admin's district (else 404); only their active flag is cleared |
| AdminRoutes.DeactivatedWorkerLeavesPool | backend/civic_issues_backend/app/routers/admin.py:52-57 | a deactivated worker is never chosen again and cannot log in, while their assigned issues keep their worker |
| SuperAdminRoutes.GetCurrentSuperAdminUser | backend/civic_issues_backend/app/routers/super_admin.py:10-13 | the current user if they are a super admin; 403 otherwise |
| SuperAdminRoutes.CreateDistrictAdmin | backend/civic_issues_backend/app/routers/super_admin.py:15-38 | super admins only, then validation, then a taken normalised email gives 400 and a weak password 400; otherwise an active ADMIN of the body's district is appended under the normalised email |
| SuperAdminRoutes.NewAdminCanActAndLogIn | backend/civic_issues_backend/app/routers/super_admin.py:28-33 | a new district admin passes the admin guard and can log in, under the stored address, with the chosen password |
| SuperAdminRoutes.DeactivateAdmin | backend/civic_issues_backend/app/routers/super_admin.py:52-72 | super admins only; the target must exist and be an ADMIN (else 404); only its active flag is cleared |
| SuperAdminRoutes.DeactivateAdminSparesOthers | backend/civic_issues_backend/app/routers/super_admin.py:61-68 | a super admin can never deactivate themself or any non-admin account |
| SuperAdminRoutes.DeactivatedAdminLocked | backend/civic_issues_backend/app/routers/super_admin.py:70 | a deactivated admin is refused by every authenticated route |
| SuperAdminRoutes.Round1 | backend/civic_issues_backend/app/routers/super_admin.py:104 | the result is within half a tenth of the input and is a whole number of tenths |
| SuperAdminRoutes.ResolutionRate | backend/civic_issues_backend/app/routers/super_admin.py:104 | 0.0 when there are no issues, else the percentage of resolved issues rounded to a whole number of tenths, within half a tenth of it |
| SuperAdminRoutes.ResolutionRateBounds | backend/civic_issues_backend/app/routers/super_admin.py:104 | with at most `total` resolved issues the rate lies between 0 and 100 |
| SuperAdminRoutes.OverviewRate | backend/civic_issues_backend/app/routers/super_admin.py:151 | 0.0 without issues; otherwise the number of completed or verified issues (the reference set UserRoutes.CountedIds) over all issues, as a percentage rounded to tenths; always within 0 to 100 |
| WorkerRoutes.GetCurrentWorkerProfile | backend/civic_issues_backend/app/routers/worker.py:11-24 | the caller's worker profile if they are a worker and have one; 403 otherwise |
| WorkerRoutes.OpenTasks | backend/civic_issues_backend/app/routers/worker.py:63-66 | exactly the ids of the issues assigned to the worker whose status is still assigned, in increasing order |
| WorkerRoutes.InsertByPriority | backend/civic_issues_backend/app/routers/worker.py:69 | the result holds exactly the old ids plus the inserted one, and starts with either the inserted id or the old head |
| WorkerRoutes.InsertKeepsSorted | backend/civic_issues_backend/app/routers/worker.py:69 | inserting into a list sorted highest priority first keeps it sorted |
| WorkerRoutes.SortByPriority | backend/civic_issues_backend/app/routers/worker.py:69 | the result is sorted highest priority first and is a permutation of the input |
| WorkerRoutes.GetMyAssignedTasks | backend/civic_issues_backend/app/routers/worker.py:58-72 | exactly the worker's open tasks, each once, highest priority first |
| WorkerRoutes.CompleteTask | backend/civic_issues_backend/app/routers/worker.py:74-144 | the checks run in order: not found, not the worker's task, wrong status, then the distance, then the upload; on success only the issue's status changes, to completed, and one proof-photo row is appended |
| WorkerRoutes.GpsBoundary | backend/civic_issues_backend/app/routers/worker.py:120-127 | exactly 500 m away is close enough, and anything further is refused |
| Duplicates.HashDistance | backend/civic_issues_backend/app/services/duplicate_detection.py:75-93 | for two well-formed hashes of equal length, at most four per digit and 0 exactly when their bits agree; the error distance otherwise |
| Duplicates.HashDistanceSymmetric | backend/civic_issues_backend/app/services/duplicate_detection.py:75-93 | the distance does not depend on the order of the two hashes |
| Duplicates.SameHashMatches | backend/civic_issues_backend/app/services/duplicate_detection.py:75-93 | a well-formed hash is at distance 0 from itself, so a re-upload always matches |
| Duplicates.MalformedNeverSimilar | backend/civic_issues_backend/app/services/duplicate_detection.py:75-93 | a malformed or mismatched pair is never within the similarity threshold |
| Duplicates.FirstMatchFrom | backend/civic_issues_backend/app/services/duplicate_detection.py:136-175 | the first matching media at or after a position, and none only when no later media matches |
| Duplicates.DuplicateReport | backend/civic_issues_backend/app/services/duplicate_detection.py:96-191 | the first match in query order with its issue; no duplicate when the new photo cannot be hashed |
| Duplicates.CheckDuplicateImage | backend/civic_issues_backend/app/services/duplicate_detection.py:96-191 | the loop computes exactly the report: the issue of the first matching media, skipping other media types, closed issues and unreadable files |
| Duplicates.ClosedIssuesNeverReported | backend/civic_issues_backend/app/services/duplicate_detection.py:136-143 | a photo of a completed or verified issue is never reported as a duplicate |
| Duplicates.UnreadableFileSkipped | backend/civic_issues_backend/app/services/duplicate_detection.py:153-155 | hiding an unreadable file only removes it from the matches, without ending the search |
| Fraud.AddSuspicion | backend/civic_issues_backend/app/services/fraud_detection.py:50-65 | one more reason and a score raised by the increment; the action is recomputed, and the flag is set at 50 and never cleared |
| Fraud.ActionMonotone | backend/civic_issues_backend/app/services/fraud_detection.py:57-65 | between coherent results, a higher score never means a milder action |
| Fraud.GrowsTransitive | backend/civic_issues_backend/app/services/fraud_detection.py:50-65 | the grows-by-more-reasons relation composes |
| Fraud.ExifSuspicious | backend/civic_issues_backend/app/services/fraud_detection.py:213-249 | missing EXIF, an AI keyword in the software tag, or no camera make, model or lens make is suspicious; an unreadable block is not |
| Fraud.NoiseSuspicious | backend/civic_issues_backend/app/services/fraud_detection.py:252-279 | suspicious exactly when the Laplacian variance is below 10 or above 1000, or else the edge density is below 0.01 or above 0.3; nothing is suspicious when the analysis raised |
| Fraud.CompressionSuspicious | backend/civic_issues_backend/app/services/fraud_detection.py:282-305 | suspicious exactly when the high-frequency share is known and lies outside 0.3 to 0.7 |
| Fraud.AiScore | backend/civic_issues_backend/app/services/fraud_detection.py:182-210 | at most 6, and 0 when the image cannot be opened |
| Fraud.AiScoreHighBand | backend/civic_issues_backend/app/services/fraud_detection.py:150-156 | the blocking level 4 is reached exactly when EXIF and one more indicator fire |
| Fraud.AiScoreMediumBand | backend/civic_issues_backend/app/services/fraud_detection.py:157-162 | the warning level 2 is reached exactly when EXIF or noise fires |
| Fraud.CheckDuplicateImages | backend/civic_issues_backend/app/services/fraud_detection.py:141-180 | a score of 4 or more adds exactly 95; otherwise a duplicate with an issue adds at least 90 and records that issue; with a score under 2 and no such duplicate nothing changes |
| Fraud.CheckUserPatterns | backend/civic_issues_backend/app/services/fraud_detection.py:399-461 | the result only grows, by at most 95; a failing first query changes nothing; an hourly count at the limit adds at least 30; with all counts known, nothing is added exactly when every count is under its limit |
| Fraud.MaxDistance | backend/civic_issues_backend/app/services/fraud_detection.py:500-510 | exceeds 50 km exactly when some known distance does, and is 0 when none is known |
| Fraud.CheckLocationAnomalies | backend/civic_issues_backend/app/services/fraud_detection.py:463-530 | a failing nearby query changes nothing; too many nearby reports add at least 20; recent reports more than 50 km apart add at least 35; without them at most 20 is added |
| Fraud.FirstSpamPhrase | backend/civic_issues_backend/app/services/fraud_detection.py:558-574 | the index of the first phrase found in the title or the description, or past the end when none is |
| Fraud.CheckTitleLength | backend/civic_issues_backend/app/services/fraud_detection.py:542-547 | a stripped title under 5 characters adds 10, and nothing otherwise |
| Fraud.CheckRepetition | backend/civic_issues_backend/app/services/fraud_detection.py:549-556 | a title of several words, fewer than half of them distinct, adds 15 |
| Fraud.CheckSpamPhrases | backend/civic_issues_backend/app/services/fraud_detection.py:558-574 | 20 is added exactly when a spam phrase occurs in the lower-cased title or description, and the one recorded reason names a phrase that occurs |
| Fraud.CheckContentAnomalies | backend/civic_issues_backend/app/services/fraud_detection.py:532-578 | the three text checks in order add at most 45, and nothing exactly when the title is long enough, not repetitive and no spam phrase occurs |
| Fraud.UnusualReports | backend/civic_issues_backend/app/services/fraud_detection.py:597-599 | never more than the total number of reports |
| Fraud.RatioAbove | backend/civic_issues_backend/app/services/fraud_detection.py:601-602 | holds exactly when five times the unusual count exceeds four times the total, that is a share above 0.8 |
| Fraud.CheckTimePatterns | backend/civic_issues_backend/app/services/fraud_detection.py:580-614 | 25 is added exactly when the counts are known, cover at least five hours, have a positive total and over 80% fall at unusual hours |
| Fraud.DetectFraud | backend/civic_issues_backend/app/services/fraud_detection.py:79-138 | the result only grows from a fresh one, and its action agrees with its score; an AI score of 4 or more blocks without recording an issue; otherwise a duplicate with an issue blocks and records it; a recorded issue comes only from that duplicate |
| Fraud.EverythingFailingAllows | backend/civic_issues_backend/app/services/fraud_detection.py:107-138 | when the image cannot be analysed and every query raises, the report is allowed |
| Seeding.DistrictEmail | backend/civic_issues_backend/app/seed_admins.py:57 | the email ends in "@gov.in" and contains no space and no upper-case letter |
| Seeding.DistrictPassword | backend/civic_issues_backend/app/seed_admins.py:67 | the password has no space, and is five characters longer than the district without its spaces |
| Seeding.DistrictPasswordStrength | backend/civic_issues_backend/app/seed_admins.py:67 | the seeded password would pass the strength rule exactly when the district without spaces has 3 characters or more, with an upper- and a lower-case letter |
| Seeding.DistrictAdmin | backend/civic_issues_backend/app/seed_admins.py:64-72 | an active ADMIN of the district with the derived email and a hash of the derived password |
| Seeding.SeedOne | backend/civic_issues_backend/app/seed_admins.py:59-74 | the district's admin is appended exactly when no user has its email yet |
| Seeding.SeedDistricts | backend/civic_issues_backend/app/seed_admins.py:56-74 | the loop only appends users and changes no other table |
| Seeding.SeedDistrictsIdle | backend/civic_issues_backend/app/seed_admins.py:59-63 | a run over districts whose emails are all taken adds no one |
| Seeding.SeedDistrictsKeepsLookups | backend/civic_issues_backend/app/seed_admins.py:59-74 | an email taken before the loop is still held by the same user afterwards |
| Seeding.SeedDistrictsKeepsUnique | backend/civic_issues_backend/app/seed_admins.py:59-74 | the loop keeps emails unique |
| Seeding.SeedDistrictsTakesAll | backend/civic_issues_backend/app/seed_admins.py:56-74 | after the loop every district's email is registered |
| Seeding.SeedDistrictsHolder | backend/civic_issues_backend/app/seed_admins.py:56-74 | a district email that was free ends up held by a new ADMIN of the first district in the list with that email |
| Seeding.WithSuperAdmin | backend/civic_issues_backend/app/seed_admins.py:32-49 | the super admin is appended exactly when its email is free |
| Seeding.SeedAdminsFor | backend/civic_issues_backend/app/seed_admins.py:25-80 | a run only appends users and changes no other table |
| Seeding.SeedAdminsRegisters | backend/civic_issues_backend/app/seed_admins.py:37-80 | after a run that created anyone, the super admin's email and every district's email are registered |
| Seeding.SeedAdminsIdempotent | backend/civic_issues_backend/app/seed_admins.py:25-80 | running the seeding twice is the same as running it once |
| Seeding.SuperAdminNeedsDistrictWork | backend/civic_issues_backend/app/seed_admins.py:76-80 | when every district email is taken the run changes nothing, so a missing super admin stays missing |
| Seeding.SeededAdminCanLogIn | backend/civic_issues_backend/app/seed_admins.py:57-72 | a district whose email was free, and shared with no earlier district, gets an admin who logs in with the derived password |
| Seeding.SeedDepartments | backend/civic_issues_backend/app/seed_departments.py:23-42 | a run only appends departments and changes no other table |
| Seeding.SeedDepartmentsCreatesAll | backend/civic_issues_backend/app/seed_departments.py:29-37 | after a run every listed name exists |
| Seeding.SeedDepartmentsIdempotent | backend/civic_issues_backend/app/seed_departments.py:23-42 | seeding departments a second time adds nothing |
| Seeding.SeedDepartmentsIdle | backend/civic_issues_backend/app/seed_departments.py:31-34 | a run whose names all exist changes nothing |
| Seeding.CaseVariantStillSeeded | backend/civic_issues_backend/app/seed_departments.py:31 | a department differing from a default only in case does not stop the default from being added |
| RagAgent.CanHandle | backend/civic_issues_backend/app/services/agents/rag_agent.py:168-183 | true exactly when some app keyword occurs in the lower-cased query |
| RagAgent.DocsReply | backend/civic_issues_backend/app/services/agents/rag_agent.py:220-230 | every chunk appears in the reply, whose length is the chunks' plus one separator between neighbours; the metadata has the count and the distinct sources |
| RagAgent.Execute | backend/civic_issues_backend/app/services/agents/rag_agent.py:185-240 | the unavailable, failed and no-documents replies on their paths; otherwise a reply that contains every retrieved chunk |
| RagAgent.FixedRepliesAreNonEmpty | backend/civic_issues_backend/app/services/agents/rag_agent.py:196-239 | the fixed replies are non-empty, so the chatbot's router stops at them |
| WebSearchAgent.CanHandle | backend/civic_issues_backend/app/services/agents/web_search_agent_tavily.py:35-47 | true exactly when some scheme keyword occurs in the lower-cased query |
| WebSearchAgent.SearchQuery | backend/civic_issues_backend/app/services/agents/web_search_agent_tavily.py:69 | the search text is "Haryana government " followed by the query |
| WebSearchAgent.Truncate | backend/civic_issues_backend/app/services/agents/web_search_agent_tavily.py:97-98 | content of at most 300 characters is kept; longer content keeps its first 300 characters and gains "..." |
| WebSearchAgent.TruncateIdempotent | backend/civic_issues_backend/app/services/agents/web_search_agent_tavily.py:97-98 | shortening twice is shortening once |
| WebSearchAgent.ResultsReply | backend/civic_issues_backend/app/services/agents/web_search_agent_tavily.py:89-114 | the reply opens with a line quoting the query and contains every hit's shortened content; the metadata lists the URLs in order |
| WebSearchAgent.Execute | backend/civic_issues_backend/app/services/agents/web_search_agent_tavily.py:49-121 | the unavailable, failed and no-results replies on their paths; otherwise the results reply |
| GeminiAgent.CanHandle | backend/civic_issues_backend/app/services/agents/gemini_agent.py:27-28 | the fallback agent accepts every query |
| GeminiAgent.HistoryMessages | backend/civic_issues_backend/app/services/agents/gemini_agent.py:47-55 | at most one message per entry, and never a system message |
| GeminiAgent.HistoryMessagesOfConversation | backend/civic_issues_backend/app/services/agents/gemini_agent.py:47-55 | user and assistant rows become one message each, in order and with the row's text, user rows as human turns |
| GeminiAgent.OtherRolesSkipped | backend/civic_issues_backend/app/services/agents/gemini_agent.py:47-55 | a row of any other role adds no message |
| GeminiAgent.Messages | backend/civic_issues_backend/app/services/agents/gemini_agent.py:41-66 | the system prompt first, at most ten history messages, and the query last |
| GeminiAgent.OlderHistoryIgnored | backend/civic_issues_backend/app/services/agents/gemini_agent.py:47 | entries before the ten newest never change the conversation |
| GeminiAgent.Execute | backend/civic_issues_backend/app/services/agents/gemini_agent.py:29-87 | the unavailable reply without a model, the failure reply when the call raises, else the answer and its word count |
| GeminiAgent.TokensZeroIffBlank | backend/civic_issues_backend/app/services/agents/gemini_agent.py:77 | the reported token count is 0 exactly when the answer is blank |
| GeminiAgent.GenerateWithContext | backend/civic_issues_backend/app/services/agents/gemini_agent.py:90-112 | the model's rewrite of the context, or the context itself when there is no model or the call raises |
| AnalyticsAgent.CanHandle | backend/civic_issues_backend/app/services/agents/analytics_agent.py:26-33 | true exactly when some statistics keyword occurs in the lower-cased query |
| AnalyticsAgent.ChooseReport | backend/civic_issues_backend/app/services/agents/analytics_agent.py:49-61 | the first report, in the order best, worst, my city, overall, department, whose words the query hits, else the best-cities report |
| AnalyticsAgent.PodiumMedals | backend/civic_issues_backend/app/services/agents/analytics_agent.py:101-105 | ranks 1 to 3 get three different medals, none shared with a later rank |
| AnalyticsAgent.BestCitiesReply | backend/civic_issues_backend/app/services/agents/analytics_agent.py:63-116 | the no-data reply for an empty ranking; otherwise the header, then a medal line for each of at most five districts, with the first one as the winner |
| AnalyticsAgent.WorstCitiesReply | backend/civic_issues_backend/app/services/agents/analytics_agent.py:118-156 | the no-data reply for an empty ranking; otherwise the header, then a line for each of at most five districts |
| AnalyticsAgent.DepartmentReply | backend/civic_issues_backend/app/services/agents/analytics_agent.py:255-296 | the no-data reply for an empty ranking; otherwise a line for every department row |
| AnalyticsAgent.Tallied | backend/civic_issues_backend/app/services/agents/analytics_agent.py:176-182 | the four status counts add up to the total, which is at most the number of issues |
| AnalyticsAgent.NewIssueCounted | backend/civic_issues_backend/app/services/agents/analytics_agent.py:176-182 | a new issue in scope raises the total and the pending count by one and nothing else |
| AnalyticsAgent.OtherDistrictsIgnored | backend/civic_issues_backend/app/services/agents/analytics_agent.py:182 | an issue outside the scope leaves the counts unchanged |
| AnalyticsAgent.ResolutionPercent | backend/civic_issues_backend/app/services/agents/analytics_agent.py:193-195 | the rate lies between 0 and 100 whenever the resolved issues do not exceed the total |
| AnalyticsAgent.CityRateLine | backend/civic_issues_backend/app/services/agents/analytics_agent.py:193-195 | the rate line is present exactly when the district has issues |
| AnalyticsAgent.UserDistrict | backend/civic_issues_backend/app/services/agents/analytics_agent.py:163-173 | present exactly when the user exists and has a non-empty district |
| AnalyticsAgent.CityStatsReply | backend/civic_issues_backend/app/services/agents/analytics_agent.py:158-210 | the update-profile reply without a district; otherwise the district's counts, ending there exactly when it has no issues |
| AnalyticsAgent.DistrictsCovered | backend/civic_issues_backend/app/services/agents/analytics_agent.py:226-227 | the number of distinct districts is at most the number of issues, and at least 1 when there are any |
| AnalyticsAgent.OverallRateLines | backend/civic_issues_backend/app/services/agents/analytics_agent.py:236-238 | the rate lines are present exactly when there are issues |
| AnalyticsAgent.OverallReply | backend/civic_issues_backend/app/services/agents/analytics_agent.py:212-253 | the counts of all issues and the districts covered, followed by the rate lines exactly when there are issues |
| AnalyticsAgent.OverallCountsEveryIssue | backend/civic_issues_backend/app/services/agents/analytics_agent.py:216-221 | the state-wide total is the number of issues |
| AnalyticsAgent.Execute | backend/civic_issues_backend/app/services/agents/analytics_agent.py:49-61 | the chosen report's reply, never empty |
| Chatbot.RagNode | backend/civic_issues_backend/app/services/langgraph_chatbot.py:109-129 | the knowledge-base agent's reply exactly when it claims the query |
| Chatbot.DatabaseNode | backend/civic_issues_backend/app/services/langgraph_chatbot.py:131-151 | the statistics agent's reply exactly when it claims the query |
| Chatbot.WebNode | backend/civic_issues_backend/app/services/langgraph_chatbot.py:153-173 | the web-search agent's reply exactly when it claims the query |
| Chatbot.Generate | backend/civic_issues_backend/app/services/langgraph_chatbot.py:175-223 | the first non-empty reply, of the knowledge base (rewritten by the model), the statistics or the web search, is used; else the general agent's |
| Chatbot.RunGraph | backend/civic_issues_backend/app/services/langgraph_chatbot.py:62-107 | the nodes run in order; each answered node ends the chain, and the final reply is generated from what ran |
| Chatbot.AgentPrecedence | backend/civic_issues_backend/app/services/langgraph_chatbot.py:225-241 | the agent used depends only on which agents claim the query: knowledge base, then statistics, then web, then general |
| Chatbot.StatisticsStopsTheChain | backend/civic_issues_backend/app/services/langgraph_chatbot.py:88-95 | once the statistics agent claims the query, web search never runs |
| Chatbot.EmptyKnowledgeReplyStillWins | backend/civic_issues_backend/app/services/langgraph_chatbot.py:175-229 | an empty knowledge-base reply does not end the chain, since the statistics node still runs, yet the knowledge base is still the agent used, and the answer is the model's rewrite of an empty context |
| Chatbot.KnowledgeAnswerWithoutModel | backend/civic_issues_backend/app/services/langgraph_chatbot.py:185-197 | without a model the knowledge-base answer is the retrieved text itself |
| Chatbot.SessionId | backend/civic_issues_backend/app/services/langgraph_chatbot.py:255-256 | the given session id when it is non-empty, and the generated one otherwise |
| Chatbot.DistrictLabel | backend/civic_issues_backend/app/services/langgraph_chatbot.py:271 | the user's district, or "Unknown" when it is unset or empty |
| Chatbot.SessionRows | backend/civic_issues_backend/app/services/langgraph_chatbot.py:309-314 | only the user's rows of that session, never more rows than the table has |
| Chatbot.SessionRowsAppend | backend/civic_issues_backend/app/services/langgraph_chatbot.py:329-349 | a stored row joins the rows of its own session and of no other |
| Chatbot.LoadHistory | backend/civic_issues_backend/app/services/langgraph_chatbot.py:302-327 | at most twice the configured number of entries: the session's oldest rows, in order |
| Chatbot.HistoryWindowFrozen | backend/civic_issues_backend/app/services/langgraph_chatbot.py:309-314 | once a session has a full window of rows, later rows never change the loaded history |
| Chatbot.SessionRowsPrefix | backend/civic_issues_backend/app/services/langgraph_chatbot.py:309-314 | appending rows only extends a session's rows |
| Chatbot.ProcessMessage | backend/civic_issues_backend/app/services/langgraph_chatbot.py:243-300 | the reply is the graph's answer, agent and metadata for the history loaded before anything is stored; exactly two rows are appended after the old ones: the user's message, then that answer, both under the reply's session id, which is the given id or the new one |
| Chatbot.ReplyDependsOnlyOnHistory | backend/civic_issues_backend/app/services/langgraph_chatbot.py:255-274 | the reply depends on the stored rows only through the history loaded before anything is stored |
| Chatbot.PairJoinsOneSession | backend/civic_issues_backend/app/services/langgraph_chatbot.py:262-293 | two rows of one session stored together join that session in order and no other session |
| Chatbot.TwoRowsPerMessage | backend/civic_issues_backend/app/services/langgraph_chatbot.py:262-293 | each message adds exactly two rows to its session, user first, and none to any other session |
| Chatbot.LateMessagesAnsweredFromFrozenHistory | backend/civic_issues_backend/app/services/langgraph_chatbot.py:302-314 | once the window is full, the reply to a message no longer depends on later rows of the session |
| Chatbot.Chat | backend/civic_issues_backend/app/routers/chatbot.py:10-32 | a 422 for an invalid body; otherwise the stripped message and the parsed session id are processed, so the reply is the graph's answer, and two rows are added |

## Left out

- Persistence, transactions and sessions: SQLAlchemy and PostgreSQL are a sequence per table. A failing commit, the refresh after it, and any database exception not named in the source's own handlers are not modelled.
- PostGIS: the 500 m test of the nearby-issue count, the worker's distance to the issue and the fraud checks' distances are inputs computed elsewhere.
- Image analysis: EXIF reading, OpenCV noise and edge measures, the FFT share and the perceptual hashes are inputs, as raw readings, hashes or None for a failure.
- External services are parameters: the Gemini model, the Pinecone vector store, the Tavily search client and push-notification delivery. Their network behaviour is not modelled.
- Cryptography: bcrypt is an injective function, and JWT signing, expiry and the algorithm are outside the model. A token is the claims it decodes to.
- Models.VerifyPassword: bcrypt reads at most 72 bytes of a password, and passlib truncates or refuses longer input depending on the backend. The injective model does not, so its promises hold only for passwords of at most 72 bytes.
- Auth.HashVerifiesOnlyItsPassword: holds only for passwords of at most 72 bytes. Two strong passwords that share their first 72 bytes verify against each other's hash in the source.
- UserRoutes.ChangePasswordThenLogin: "the old password no longer logs in" holds only when the two passwords differ within their first 72 bytes, for the same reason.
- Email addresses: the syntax and normalisation rules of `EmailStr` come from an email-validation library outside the model, so the check is a parameter of the user-creating bodies. Login looks the username up as typed, so an address typed differently from its normalised form does not log in; the model states login only for the stored address.
- Schemas.ParseUserBase: checks the full name with the corrected rule of the Findings table (length bounds on the stripped name). A name of blanks such as "   " gets 422, while the source accepts it and stores an empty name.
- Schemas.ParseUserCreate: inherits the corrected full-name rule of Schemas.ParseUserBase.
- AdminRoutes.CreateWorker: validates its body with Schemas.ParseUserCreate, so it inherits the corrected full-name rule.
- SuperAdminRoutes.CreateDistrictAdmin: validates its body with Schemas.ParseUserCreate, so it inherits the corrected full-name rule.
- AdminRoutes.CreateDepartment: checks the name with the corrected rule of the Findings table. "  " gets 422 where the source stores "". A valid name padded with blanks beyond 100 characters is accepted and stored stripped, where the source gives 422 on the raw length.
- UserRoutes.CreateIssue: the spatial outcome stays an input. The corrected Priority.PendingNearby gives what it should be, and the query as written always fails (see Findings). A failed spatial query is modelled as priority.py sees it: the fallback score, then the media row and the second commit. In the source the failed statement aborts the PostgreSQL transaction, which priority.py does not roll back. The commit at users.py:78 would then fail, leaving the problem committed at priority 0.0, without its media row, and the client with a 500. Transaction-abort semantics are not modelled.
- Assignment.TriggerAutoAssignment: delivers the notices after a placement, the evidently intended behaviour. The code as written skips them, and Assignment.TriggerAutoAssignmentAsWritten models that (see Findings).
- Clocks, `uuid` and the filesystem: timestamps, generated session ids, generated file names and the write itself are inputs. "Updated recently" is a predicate supplied by the caller. A disk error is a flag.
- Scheduling and concurrency: APScheduler's timing and concurrent requests are not modelled. The daily jobs are a sequence of runs.
- Floating point: all scores are exact reals. Python's `round` (half-to-even on binary floats) and `.1f` formatting are modelled as half-up on exact values.
- Priority.Round2: rounds halves up on exact reals rather than Python's float rounding, because floats are outside the model.
- SuperAdminRoutes.Round1: rounds halves up on exact reals, for the same reason.
- Fraud.AiScore: only its bands are stated in lemmas. The three indicators do not determine each other (3 = 2 + 1), so no stronger inverse exists.
- Text: case folding, `\w`, `\s` and `isdigit` are ASCII-only. The Hindi keywords are compared as code points without normalisation.
- Reporting endpoints are not modelled: they are read-only aggregations whose results are SQL group-bys with no invariant of their own.
  - the analytics router;
  - the admin statistics, heat-map, department-activity, worker-performance, worker and department lists;
  - the super admin's admin list and district analytics;
  - the client's detailed district statistics (users.py:220-253);
  - the worker's `/me/stats`.
- Listings by district: the admin's problem list is not modelled; it is a plain filtered select.
- Dictionaries returned to clients: `to_dict`, response models and metadata dictionaries are datatypes.
- Fraud bookkeeping is not modelled: `log_fraud_attempt`, `get_fraud_statistics`, `get_user_fraud_history` and `get_existing_problem_details` only log or read.
- Duplicate checks inside fraud detection: `_check_duplicate_image_hash`, `_calculate_perceptual_hash` and `_hash_distance` in fraud_detection.py are not a separate model. They repeat the duplicate-detection service, which is modelled, and their result is an input of the fraud checks.
- Non-square perceptual hash layouts are not modelled; a hash is a hex string of four bits per digit.
- Chatbot construction: langgraph_chatbot.py:47-50 passes `settings.VECTOR_STORE_PATH`, which config.py does not define, and a `vector_store_path` argument that `RAGAgent.__init__` does not accept (agents/rag_agent.py:24). Read as written, building the module-level `chatbot` (langgraph_chatbot.py:386) raises, and so does importing the chat router and main.py. The model assumes a constructed graph whose knowledge-base agent reads the vector store parameter.
- Duplicates.DuplicateReport: the candidate media come from a SELECT without ORDER BY (duplicate_detection.py:136-143), so the database chooses their order. The model scans them in id order, and the first match it reports is one possible answer.
- Chatbot sessions listing: `get_user_sessions` and the chat-history router are read-only and not modelled.
- The web-search keyword "registration" contains the knowledge-base keyword "register", so such queries always reach the knowledge base first. This follows from Chatbot.AgentPrecedence and is not stated separately.
- Error paths in the statistics agent: exceptions raised by its database queries are not modelled; the snapshot it reads is total.
- Seeding errors: the rollback and re-raise on a database error is not modelled, because no database error exists in the model.
- Logging: every logger call and the development-only credential log are not modelled.

## Findings

| source | as written | input that shows it | evidently intended | confidence | as-written member | corrected member |
|---|---|---|---|---|---|---|
| backend/civic_issues_backend/app/schemas.py:16-25 | the length bounds on a department name apply to the raw value, and the validator strips it afterwards | the name "  " (two blanks) passes and stores an empty department name | the bounds of 2 to 100 hold for the stripped name that is stored | not executed | Schemas.BlankDepartmentNameAccepted | Schemas.ValidateDepartmentName |
| backend/civic_issues_backend/app/schemas.py:36-48 | the length bounds on a full name apply to the raw value, and the validator strips it afterwards | the full name "   " (three blanks) passes and stores an empty name | the bounds of 3 to 100 hold for the stripped name that is stored | not executed | Schemas.BlankFullNameAccepted | Schemas.ValidateFullName |
| backend/civic_issues_backend/app/services/auto_assignment.py:92-95 | after the commit, the log line reads `available_worker.user`, a relationship the worker query joined but did not load; under the async session the implicit load raises, the handler at line 110 catches it, and the notifications at lines 98-108 are never sent | any run that places an issue: one pending issue, a department whose name uniquely matches, and one active worker of it in the issue's district with spare capacity | the worker and the reporter are notified after every placement | not executed; medium (depends on SQLAlchemy's async lazy-loading behaviour) | Assignment.TriggerAutoAssignmentAsWritten | Assignment.TriggerAutoAssignment |
| backend/civic_issues_backend/app/services/priority.py:61-72 | the raw spatial query compares the status column with the literal 'pending', while the `Enum(ProblemStatusEnum)` column of models.py:73 stores member names such as 'PENDING' (admin.py:69 compares with those); PostgreSQL refuses the cast and the query raises | any report, for example the first issue of an empty table | the query counts the pending issues within 500 m, the new one included, and the density term takes part in the score | not executed; medium (depends on the column being a native PostgreSQL enum of member names, SQLAlchemy's default) | Priority.SpatialQueryAsWritten | Priority.PendingNearby |
