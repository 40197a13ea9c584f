# DocuMentor front end, modelled in Dafny

DocuMentor is a Next.js front end. Vendors upload planning documents, and
admins and reviewers look through the submissions. This project models its
logic:

- the Supabase client choice and the demo-mode mock client;
- the `AuthProvider` state (user, profile, session, loading), its listener and
  its handlers;
- the role gate of `ProtectedRoute` and the home page's dispatch;
- the login form's handlers and guards;
- the single-file upload form's status machine;
- the bulk upload queue with its sequential processing loop;
- the searches, badges and score bands of the admin screens and the results
  page;
- the account menu's initials and role badge.

The pure parts (mock client, role checks, filters, score bands, initials) are
datatypes, functions and lemmas. Components that change state step by step
are classes whose methods carry `modifies` clauses and loop invariants:

- `AuthProvider`;
- `LoginForm`;
- `UploadForm`;
- `BulkUpload`;
- `UserMenu`.

The loops in `processFiles` and `simulateAnalysis` are `for`/`while` loops,
proved against specification functions (`Processed`, `RunTicks`,
`UploadRamp`).

Three kinds of input are parameters of the model:

- **Randomness.** `Math.random` outcomes are a `Roll` per file.
- **Time.** `new Date().toISOString()` and `Date.now()` are string parameters.
- **Backend replies.** Supabase replies are function values or reply
  parameters.

Files:

- `wrappers.dfy`: Option and Result types, and the JavaScript `a || b`
  fallback on strings.
- `text.dfy`: ASCII `toLowerCase`/`toUpperCase`, `includes`, and
  `Array.prototype.filter` with its laws.
- `supabase_types.dfy`: roles, profiles, users, sessions.
- One file per core source file, plus `demo_session.dfy`. That file wires the
  mock client, the provider and the home page together.

## Model

| member | source | states |
|---|---|---|
| SupabaseTypes.RoleName | types/supabase.ts:83 | the role's string is non-empty |
| SupabaseTypes.RoleNameInjective | types/supabase.ts:83 | distinct roles have distinct names, both directions |
| Text.ContainsAt | components/admin-submissions-list.tsx:78-80 | `includes` holds iff the term occurs at some position of the string |
| Wrappers.OrElse | components/user-menu.tsx:67 | `a \|\| b` on a nullable string: a non-empty value is kept; a null or empty one falls back |
| Client.ChooseClient | lib/client.ts:11-19 | the real client iff both URL and anon key are set and non-empty, otherwise the mock |
| Client.MockSignIn | lib/client.ts:26-60 | succeeds iff the e-mail is one of the three demo accounts and the password is "demo123"; on success user and session carry id `demo-<role>`, the e-mail, the account metadata and token "demo-token"; otherwise no user or session and "Invalid credentials" |
| Client.MockSignUp | lib/client.ts:61-65 | always refused with "Sign up not available in demo mode" |
| Client.MockGetSession | lib/client.ts:25 | there is never a stored session |
| Client.MockSingle | lib/client.ts:78-99 | never an error; data iff the table is `profiles`, and then always the same vendor row |
| Client.PrototypeKeyAccepted | lib/client.ts:34 | the as-written `in` test accepts "constructor" with the demo password; the intended sign-in refuses it |
| Client.AcceptsAsWrittenOnAccounts | lib/client.ts:28-34 | apart from inherited keys, the as-written test and the intended sign-in agree |
| AuthContext.AsList | lib/auth-context.tsx:155 | a single role becomes a one-element list, a list is kept |
| AuthContext.HasRole | lib/auth-context.tsx:153-157 | false without a profile; true iff the profile's role is among the given roles |
| AuthContext.HasRoleOne | lib/auth-context.tsx:153-157 | asking for one role is asking for a one-element list; true iff the role matches |
| AuthContext.HasRoleMonotone | lib/auth-context.tsx:153-157 | widening the role list never revokes access |
| AuthContext.IsAdmin | lib/auth-context.tsx:192 | iff a profile with role admin |
| AuthContext.IsVendor | lib/auth-context.tsx:193 | iff a profile with role vendor |
| AuthContext.AdminAndVendorExclusive | lib/auth-context.tsx:192-193 | `isAdmin` and `isVendor` are never both true |
| AuthContext.UseAuth | lib/auth-context.tsx:200-206 | returns the context when present, otherwise fails with the provider message |
| AuthContext.MockProfile | lib/auth-context.tsx:50-59 | id from the user, e-mail or ""; for each of name, role and organization separately: the metadata value when present (and non-empty for the strings), otherwise the fallback "Demo User", vendor or "Demo Organization", also when the metadata itself is missing (so a demo sign-in, whose metadata has no organization, gets "Demo Organization"); no avatar, timestamps `now` |
| AuthContext.OverlayLaws | lib/auth-context.tsx:165 | `{...profile, ...updates}`: the empty update is the identity, applying an update twice is applying it once, and two updates compose into their merge |
| AuthContext.AfterFetch | lib/auth-context.tsx:108-123 | a failed fetch leaves the profile as it was; a successful one installs the row |
| AuthContext.AuthProvider.constructor | lib/auth-context.tsx:32-35 | no user, profile or session; loading |
| AuthContext.AuthProvider.InitialSession | lib/auth-context.tsx:39-70 | adopts the stored session and its user; a user gets the mock or the fetched profile; loading ends |
| AuthContext.AuthProvider.AuthStateChange | lib/auth-context.tsx:77-103 | adopts the event's session; with a user the profile is built or fetched, without one user and profile are cleared; loading ends |
| AuthContext.AuthProvider.SignOut | lib/auth-context.tsx:148-151 | the profile is cleared |
| AuthContext.AuthProvider.UpdateProfile | lib/auth-context.tsx:159-180 | without a user: "No user logged in" and no change; in demo mode: the update is overlaid on an existing profile with no error; otherwise the backend's error is returned and the profile is overlaid only when there is none |
| ProtectedRoute.Gate | components/protected-route.tsx:15-53 | spinner while loading; children iff a user, a profile and (no required role or the role is held); "Access Denied" iff no user or profile and no fallback; "Insufficient Permissions" iff the role is lacking and no fallback; the fallback otherwise |
| ProtectedRoute.GateMonotone | components/protected-route.tsx:39 | a route that admits a user still admits them when more roles are allowed |
| HomePage.DashboardFor | app/page.tsx:76-88 | the admin dashboard iff the profile's role is admin or reviewer |
| HomePage.Home | app/page.tsx:91-107 | spinner while loading, landing page without a user, otherwise the dashboard for the profile |
| HomePage.DispatchAlwaysAdmits | app/page.tsx:73-89 | with a profile the chosen dashboard's route always shows it; without a profile the vendor route says "Access Denied"; "Insufficient Permissions" never appears |
| LoginForm.ApplyChangesOnlyItsField | components/login-form.tsx:32-35 | an input change sets the named field and leaves every other field as it was |
| LoginForm.SignUpProblem | components/login-form.tsx:56-77 | the sign-up guard chain in order: demo mode, then missing fields, then mismatching passwords, then a password under 6 characters; none iff all checks pass |
| LoginForm.SignUpDataOf | components/login-form.tsx:82-86 | name and role are sent as entered; an empty organization is sent as absent |
| LoginForm.DemoCredentials | components/login-form.tsx:98-106 | `demoCredentials[role]`: `<role>@demo.com` / "demo123" for every role; the form offers buttons for vendor and admin only |
| LoginForm.DemoCredentialsAccepted | components/login-form.tsx:98-109 | the mock client accepts every role's demo credentials (so both demo buttons succeed) and signs in with that role |
| LoginForm.LoginForm.constructor | components/login-form.tsx:20-30 | empty form, no error, not submitting |
| LoginForm.LoginForm.HandleInputChange | components/login-form.tsx:32-35 | the edit is applied and the error cleared |
| LoginForm.LoginForm.HandleSignIn | components/login-form.tsx:37-54 | without e-mail or password: "Please enter both email and password" and no call; otherwise the reply's error becomes the form's error and submission ends |
| LoginForm.LoginForm.HandleSignUp | components/login-form.tsx:56-96 | calls sign-up iff the guard chain passes, otherwise shows its message; the reply's error is shown |
| LoginForm.LoginForm.HandleDemoLogin | components/login-form.tsx:98-114 | fills in the role's credentials, signs in, and shows "Demo login failed: …" on an error |
| LoginForm.DemoLoginNeverFails | components/login-form.tsx:98-114 | with the mock client a demo button never sets an error |
| DocumentAnalysisResults.ScoreColor | components/document-analysis-results.tsx:29-33 | green from 80, yellow from 60, red below |
| DocumentAnalysisResults.ScoreBgColor | components/document-analysis-results.tsx:35-39 | the same three bands for the background |
| DocumentAnalysisResults.ColorsShareBands | components/document-analysis-results.tsx:29-39 | two scores share a text colour iff they share a background colour |
| DocumentAnalysisResults.StatusBadge | components/document-analysis-results.tsx:54-73 | good, warning and error map one-to-one to "Good Match", "Needs Improvement" and "Missing Content" |
| DocumentAnalysisResults.NextSteps | components/document-analysis-results.tsx:185-187 | exactly the sections whose status is not good |
| DocumentAnalysisResults.ExcellentIffNoNextSteps | components/document-analysis-results.tsx:185-201 | the list of next steps is empty iff every section is good |
| DocumentAnalysisResults.NextStepsKeepOrder | components/document-analysis-results.tsx:186 | the next steps keep the sections' order |
| DocumentAnalysisResults.HasSeparator | components/document-analysis-results.tsx:169 | every section but the last is followed by a separator |
| DocumentAnalysisResults.ReportOf | components/document-analysis-results.tsx:77-83 | the report carries the result's file name, score, sections and summary, and the given date |
| DocumentAnalysisResults.ReportFileNameRoundTrip | components/document-analysis-results.tsx:89 | the download name `analysis-report-<name>.json` gives back the file name |
| VendorUploadForm.FileProblem | components/vendor-upload-form.tsx:42-57 | accepted iff the type is DOCX, PDF or DOC and the size is at most 10485760 bytes; a bad type is reported first, then the size |
| VendorUploadForm.SizeBoundary | components/vendor-upload-form.tsx:54 | exactly 10 MiB is accepted, one byte more is refused |
| VendorUploadForm.MockResult | components/vendor-upload-form.tsx:83-125 | id `analysis-<stamp>`, the chosen file's name, or "document.pdf" when there is no file or its name is empty; overall score 78, five sections |
| VendorUploadForm.MockResultNeedsWork | components/vendor-upload-form.tsx:83-125 | the mock result always lists three next steps and is never "excellent" |
| VendorUploadForm.UploadRamp | components/vendor-upload-form.tsx:64-81 | the analysis produces 103 status/progress steps |
| VendorUploadForm.RampShape | components/vendor-upload-form.tsx:64-81 | the steps start at uploading 0 and end at processing 100; progress never decreases; uploading stays within 0-30 and precedes processing, which stays within 30-100 |
| VendorUploadForm.UploadForm.constructor | components/vendor-upload-form.tsx:32-36 | idle, no file, progress 0, no error or result |
| VendorUploadForm.UploadForm.HandleFileChange | components/vendor-upload-form.tsx:38-62 | no selection changes nothing; a rejected file sets its message and keeps the old file; an accepted one is stored and clears the error |
| VendorUploadForm.UploadForm.SimulateAnalysis | components/vendor-upload-form.tsx:64-129 | goes through exactly the ramp's steps, then completes at 100 with the mock result, which the results view shows |
| VendorUploadForm.UploadForm.HandleSubmit | components/vendor-upload-form.tsx:131-141 | without a file: "Please select a file to upload"; otherwise the error is cleared and the analysis runs |
| VendorUploadForm.UploadForm.HandleReset | components/vendor-upload-form.tsx:143-149 | back to the initial state; the results view is gone |
| BulkUpload.Settled | components/bulk-upload.tsx:65-84 | a processed file ends at progress 100, completed iff the roll succeeds; then it has score 70-99 and passed or warning, otherwise failed with the error "Failed to process document. Format may be unsupported." and no result |
| BulkUpload.Processed | components/bulk-upload.tsx:52-84 | the list after the loop: one entry per entry of the snapshot |
| BulkUpload.ProcessedIdempotent | components/bulk-upload.tsx:53 | after a run nothing is queued, so a second run leaves the list unchanged |
| BulkUpload.RoundPercent | components/bulk-upload.tsx:87 | `Math.round(k/n*100)` lies in 0..100, is 100 when all are done and 0 when none are |
| BulkUpload.RoundPercentMonotone | components/bulk-upload.tsx:87 | the overall percentage never decreases as the loop advances |
| BulkUpload.OverallAfter | components/bulk-upload.tsx:49-87 | the overall progress stays within 0..100 and is set after each processed file |
| BulkUpload.EntryTicks | components/bulk-upload.tsx:56-62 | a processed file's progress goes 0, 10, …, 100, every update made while the file is processing |
| BulkUpload.RunTicksOnlyQueued | components/bulk-upload.tsx:52-62 | every progress update of a run belongs to an entry that was queued, is made while that entry is processing, and is a multiple of 10 in [0, 100] |
| BulkUpload.FooterOf | components/bulk-upload.tsx:241-245 | the footer counts all files with the right plural; completed plus failed never exceeds the total |
| BulkUpload.CountsAfterProcessing | components/bulk-upload.tsx:243-244 | when nothing was mid-processing, after a run every file is counted as completed or failed |
| BulkUpload.ProcessEnabled | components/bulk-upload.tsx:256 | "Process Files" is enabled iff nothing is running and some file is queued |
| BulkUpload.ClearOffered | components/bulk-upload.tsx:243-249 | "Clear Completed" is offered iff the footer's completed count is positive |
| BulkUpload.RemoveEnabledAfterRun | components/bulk-upload.tsx:214 | a run changes no entry's remove-button state; if none was processing at the start, every remove button is enabled afterwards |
| BulkUpload.ClearKeepsDisabled | components/bulk-upload.tsx:214 | "Clear Completed" keeps every entry whose remove button is disabled |
| BulkUpload.ScoreCellOf | components/bulk-upload.tsx:187-201 | a missing or zero score shows "-"; otherwise the score in green from 80, yellow from 70, red below |
| BulkUpload.SettledScoreShown | components/bulk-upload.tsx:65-201 | a completed file always shows its score, never in red |
| BulkUpload.StatusBadge | components/bulk-upload.tsx:118-133 | queued, processing, error, and for a completed file "Passed" or "Warnings" from its result |
| BulkUpload.WithoutId | components/bulk-upload.tsx:93-95 | keeps exactly the entries with another id |
| BulkUpload.WithoutIdKeepsOrder | components/bulk-upload.tsx:94 | removal keeps the remaining entries' order |
| BulkUpload.WithoutCompleted | components/bulk-upload.tsx:97-99 | keeps exactly the entries that are not completed; "Clear Completed" is then no longer offered |
| BulkUpload.WithoutCompletedLaws | components/bulk-upload.tsx:98 | clearing keeps the order and clearing twice is clearing once |
| BulkUpload.BulkUpload.constructor | components/bulk-upload.tsx:25-27 | no files, not processing, progress 0 |
| BulkUpload.BulkUpload.OnDrop | components/bulk-upload.tsx:34-42 | the dropped files are appended after the existing entries, each queued at progress 0 with its id; the existing entries are unchanged |
| BulkUpload.BulkUpload.ProcessFiles | components/bulk-upload.tsx:45-91 | nothing happens when the list is empty or a run is under way; otherwise the list becomes `Processed` of the snapshot, the progress updates are `RunTicks` (each made while its entry is processing), the overall progress is `OverallAfter`, and processing ends |
| BulkUpload.BulkUpload.AdvanceProgress | components/bulk-upload.tsx:56-62 | for an entry already set to processing: only entry i changes, it stays processing, and its progress goes through 0, 10, …, 100 |
| BulkUpload.BulkUpload.RemoveFile | components/bulk-upload.tsx:93-95 | the list becomes `WithoutId` of the old one |
| BulkUpload.BulkUpload.ClearCompleted | components/bulk-upload.tsx:97-99 | the list becomes `WithoutCompleted` of the old one |
| AdminSubmissionsList.Filtered | components/admin-submissions-list.tsx:76-85 | keeps exactly the submissions matching both the search and the status filter |
| AdminSubmissionsList.FilteredKeepsOrder | components/admin-submissions-list.tsx:76 | the filter keeps the list's order |
| AdminSubmissionsList.EmptySearchShowsAll | components/admin-submissions-list.tsx:72-85 | the initial empty term with "all" shows every submission |
| AdminSubmissionsList.FieldHitIsSubstring | components/admin-submissions-list.tsx:78-80 | a field matches iff the lower-cased term occurs at some position of the lower-cased field |
| AdminSubmissionsList.FieldHitIgnoresCase | components/admin-submissions-list.tsx:78-80 | a field is hit by a term iff it is hit by the lower-cased term |
| AdminSubmissionsList.SearchIgnoresCase | components/admin-submissions-list.tsx:78-80 | a term and its lower-cased form match the same submissions |
| AdminSubmissionsList.NoResultsMessage | components/admin-submissions-list.tsx:217 | "No submissions found" shows iff no submission passes both tests |
| AdminSubmissionsList.ScoreColor | components/admin-submissions-list.tsx:104-109 | gray iff there is no score; green from 80, yellow from 60, red below |
| AdminSubmissionsList.ScoreCell | components/admin-submissions-list.tsx:179 | a null or zero score shows "-", any other score its percentage |
| AdminSubmissionsList.ZeroScoreShowsDash | components/admin-submissions-list.tsx:104-179 | a score of 0 is coloured red yet shown as "-" |
| AdminSubmissionsList.FlagsCell | components/admin-submissions-list.tsx:183-189 | "-" iff the flag count is null; otherwise the count, red iff it is positive |
| AdminSubmissionsList.StatusBadge | components/admin-submissions-list.tsx:87-102 | completed, processing and error map to their badges, any other status to "Unknown" |
| AdminDashboard.Filtered | components/admin-dashboard.tsx:82-87 | keeps exactly the submissions whose vendor, document or id contains the term, ignoring case |
| AdminDashboard.FilteredKeepsOrder | components/admin-dashboard.tsx:82 | the search keeps the table's order |
| AdminDashboard.EmptySearchShowsAll | components/admin-dashboard.tsx:79-87 | the initial empty term shows every submission |
| AdminDashboard.SearchIgnoresCase | components/admin-dashboard.tsx:84-86 | a term and its lower-cased form match the same submissions |
| AdminDashboard.ScoreBadgeOf | components/admin-dashboard.tsx:110-117 | no badge iff the score is null; otherwise the score, green from 90, blue from 80, yellow from 70, destructive below |
| AdminDashboard.Rank | components/admin-dashboard.tsx:113-116 | the four tones ranked worst to best |
| AdminDashboard.ScoreBadgeMonotone | components/admin-dashboard.tsx:113-116 | a higher score never gets a worse tone |
| AdminDashboard.StatusBadge | components/admin-dashboard.tsx:89-108 | completed, processing and failed map to their badges, any other status to "Unknown" |
| AdminDashboard.PortalLabel | components/admin-dashboard.tsx:129 | "Admin Portal" iff the profile's role is admin, otherwise "Reviewer Portal" |
| AdminDashboard.WelcomeName | components/admin-dashboard.tsx:133 | the profile's full name if present and non-empty, otherwise "User" |
| AdminDashboard.RowOf | components/admin-dashboard.tsx:233-258 | a row has the "Flagged" badge iff the submission is flagged, a score badge iff it has a score, and "Unknown" iff its status is unknown |
| AdminDashboard.Table | components/admin-dashboard.tsx:233-259 | one row per submission that passes the search, in order, each flagged exactly when its submission is |
| UserMenu.Split | components/user-menu.tsx:32 | `split(" ")` yields at least one piece and no piece contains a space |
| UserMenu.JoinSplit | components/user-menu.tsx:32 | joining the pieces with spaces gives back the string |
| UserMenu.SplitJoin | components/user-menu.tsx:32 | splitting a join of space-free pieces gives back the pieces |
| UserMenu.Heads | components/user-menu.tsx:33-34 | at most one character per piece |
| UserMenu.WordStarts | components/user-menu.tsx:30-37 | the characters that start a word are non-space characters of the name |
| UserMenu.HeadsAreWordStarts | components/user-menu.tsx:32-34 | the first characters of the pieces are exactly the word starts; empty pieces add nothing |
| UserMenu.GetInitials | components/user-menu.tsx:30-37 | at most two characters, none lower-case |
| UserMenu.InitialsAreFirstWordStarts | components/user-menu.tsx:30-37 | the initials are the first two word starts, upper-cased |
| UserMenu.SingleWordInitials | components/user-menu.tsx:30-37 | a one-word name gives its first letter, upper-cased |
| UserMenu.AvatarInitials | components/user-menu.tsx:67 | initials of the full name, or of the e-mail when the name is null or empty |
| UserMenu.RoleBadgeVariant | components/user-menu.tsx:50-59 | admin → default, reviewer → secondary, vendor → outline |
| UserMenu.RoleIcon | components/user-menu.tsx:39-48 | admin → shield, reviewer → document, vendor → person |
| UserMenu.IconFollowsVariant | components/user-menu.tsx:39-59 | the icon and the variant split the roles the same way |
| UserMenu.Render | components/user-menu.tsx:28-85 | nothing without a user or a profile; otherwise initials, name, role badge (variant, icon and the role's name) and e-mail, with the organization line iff it is non-empty, showing the profile's organization |
| UserMenu.SignOutLabel | components/user-menu.tsx:99 | "Signing out..." iff a sign-out is under way, otherwise "Sign out" |
| UserMenu.UserMenu.constructor | components/user-menu.tsx:20 | not signing out |
| UserMenu.UserMenu.HandleSignOut | components/user-menu.tsx:22-26 | the flag is true while the provider signs out and false afterwards; the profile is cleared |
| DemoSession.MockListenerEvents | lib/client.ts:67-76 | the mock's listener delivers no event |
| DemoSession.ListenerEvents | lib/auth-context.tsx:77 | the corrected listener delivers the session of a successful sign-in and nothing otherwise |
| DemoSession.Deliver | lib/auth-context.tsx:77-103 | with no event the provider is unchanged; otherwise it holds the last event's session, user and demo profile, and loading has ended |
| DemoSession.DemoLoginAsWritten | lib/client.ts:67-76 | the as-written demo flow stays on the landing screen whatever the credentials |
| DemoSession.DemoButtonStaysOnLanding | lib/client.ts:67-76 | the vendor demo credentials are accepted, and still the landing screen stays |
| DemoSession.DemoLogin | app/page.tsx:91-107 | with the corrected listener a successful demo sign-in reaches the role's dashboard, and a refused one stays on the landing screen |

## Left out

- JSX layout, styling, icons and charts are not modelled. Neither are the
  fixed dashboard figures and mock tables (`scoreDistribution`,
  `weeklySubmissions`, the stat cards). The review highlight and the "Mark as
  Reviewed" item of the submissions list are only styling of a row.
- Asynchrony is not modelled. `await`, timers and `setTimeout` delays become
  sequential steps. Each handler runs to completion before the next event.
- BulkUpload.BulkUpload.ProcessFiles: edits made while a run is under way are
  not modelled. The source applies functional `setFiles` updates to the live
  list, so removing or dropping files mid-run could shift indices. The model
  works on one snapshot.
- `Math.random` is a per-file `Roll` parameter: success, score pick 0-29 and
  passed/warning.
- Upload ids are a parameter of `OnDrop`. Their base-36 shape and uniqueness
  are not modelled.
- Clocks are opaque string parameters: `new Date().toISOString()`,
  `Date.now()` and `toLocaleDateString()`.
- BulkUpload.RoundPercent: the rounding is exact, half rounded up. The
  floating-point error of `(i + 1) / files.length * 100` is not modelled.
- The real Supabase network calls are replies passed to the handlers:
  sign-in, sign-up, sign-out, profile fetch and profile update. So is the
  listener of the real client. `console.error` logging is dropped.
- The mock's `signOut` and `update().eq()` always succeed and carry no
  logic. They are not modelled separately.
- Strings are sequences of characters. `toLowerCase` and `toUpperCase` are
  ASCII-only. `word[0]` is a whole character, not a UTF-16 code unit.
- LoginForm.SignUpProblem: the password length counts characters, while
  JavaScript's `.length` counts UTF-16 code units. A password of four letters
  and one emoji has length 6 in the browser and is accepted; in the model it
  has length 5 and is refused as too short.
- AuthContext.AuthProvider.UpdateProfile: an update is a set of present or
  absent fields. A key that is present but explicitly `undefined` is not
  modelled.
- The blob download, the `alert` calls and the dropzone's own `accept` filter
  belong to the browser and are not modelled. The file-size display is
  floating point and is not modelled either.
- VendorUploadForm.UploadForm.HandleFileChange: only the first selected file
  is read, as in the source. The input's `accept` attribute is not modelled.

## Findings

| source | as written | input that shows it | evidently intended | confidence | as-written member | corrected member |
|---|---|---|---|---|---|---|
| lib/client.ts:34 | `email in demoAccounts` is also true for keys that every object inherits from `Object.prototype` | e-mail "constructor", password "demo123": the mock signs in a user with id "demo-undefined" | only the three demo e-mails are accepted | not executed | Client.PrototypeKeyAccepted | Client.MockSignIn |
| lib/client.ts:67-76 | the mock's `onAuthStateChange` never calls its callback, so the provider never learns of a sign-in | demo button "vendor" (vendor@demo.com / demo123): the reply has no error, yet the home page stays on the landing screen | a successful demo sign-in is reported to the listener, which stores the user and shows that user's dashboard | not executed | DemoSession.DemoLoginAsWritten | DemoSession.DemoLogin |
