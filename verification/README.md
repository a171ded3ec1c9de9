# Cyber-Odisha case tracking: a Dafny model of the view logic

Cyber-Odisha is a court-case tracking front end with three roles. A clerk records and edits
cases, a police officer searches and reads them, and an administrator sees every case under
five filters, per-status counts, and the user list, where roles are changed and accounts are
created. Sign-in, the user profiles and the case documents live in a hosted backend.

This project models the logic the views run between backend calls:

- **Types** (`types.dfy`): users, cases and the closed role and status sets. A stored case
  document keeps every text field optional (`RawFields`), because the views treat a missing
  field differently from an empty one.
- **Auth** (`auth.dfy`): turning each sign-in-state event into the current user, or none.
- **Shell** (`shell.dfy`): choosing between the login screen and the role's dashboard.
- **Login** (`login.dfy`): the sign-in form and its error messages.
- **Police** (`police.dfy`): the four-field case search, the status colours and the detail
  dialog.
- **Clerk** (`clerk.dfy`): document normalisation (`docToCase`), photo checks, the submit
  payload and the add/edit/cancel form.
- **Admin** (`admin.dfy`): the five filters, the clerk-name choice list, the status counts,
  role changes, account creation and the filter dialog's draft/applied buffers.
- Helpers: `Seqs` (filtering, order-preserving subsequences, de-duplication), `Text` (ASCII
  lowercasing, substring containment, the string order of the default sort, sorting),
  `Backend` (the requests a view sends and the service's error shape) and `Wrappers`.

State a component updates in place is a class whose methods carry `modifies` frames. Backend
calls are not performed. A method returns the requests it would send, and takes the backend's
answers (a read result, a failure) as parameters. The clock reads behind the `new Date()`
fallbacks become a `now` parameter. Timestamps are integers (milliseconds). The local-calendar
day bounds of the date filter are the two functions of a `Calendar` parameter.

## Model

| member | source | states |
|---|---|---|
| Types.ParseRole | src/types/index.ts:1 | a stored role text reads as a role exactly when it is that role's name; the role set is closed |
| Types.RoleNamesRoundTrip | src/types/index.ts:1 | each role's name reads back as the role, and distinct roles have distinct names |
| Types.ParseStatus | src/types/index.ts:26 | a status text reads as a status exactly when it is that status's name |
| Types.StatusNamesRoundTrip | src/types/index.ts:26 | each status's name reads back as the status, and the four names are distinct |
| Types.ToListed | src/components/PoliceDashboard.tsx:30-35 | a listed row keeps the document's id and data as stored, and a present timestamp as it is |
| Police.SearchCases | src/components/PoliceDashboard.tsx:49-54 | the shown rows are an order-preserving subsequence of the list; a row is shown iff it satisfies `Police.MatchesSearch`: its case number, name or crime type contains the term ignoring case, or its identity number contains it as typed; every copy of a matching row is kept and no other row; with an empty term, a row is shown iff one of those fields is present |
| Police.EmptyTermMatchesPresentFields | src/components/PoliceDashboard.tsx:49-54 | the empty term matches a row exactly when one of the four searched fields is present |
| Police.EmptyTermKeepsNumberedCases | src/components/PoliceDashboard.tsx:49-54 | when every row has a case number, the empty term shows the whole list, in order |
| Police.FoldedFieldsIgnoreTermCase | src/components/PoliceDashboard.tsx:50-53 | without an identity number, a term and its lower-case form match the same rows |
| Police.IdentityNumberIsCaseSensitive | src/components/PoliceDashboard.tsx:52 | identity number "ab12" is found by "ab" and not by "AB" |
| Police.SearchExamples | src/components/PoliceDashboard.tsx:49-54 | "CR-2024" finds case "CR-2024-001"; "234567891234" does not find identity number "999999999999" |
| Police.StatusColor | src/components/PoliceDashboard.tsx:56-64 | the colour is gray exactly when the text is none of the four statuses |
| Police.StatusColorsDistinct | src/components/PoliceDashboard.tsx:56-64 | the four statuses have four different colours |
| Police.PoliceDashboard.constructor | src/components/PoliceDashboard.tsx:16-20 | empty list and search, nothing selected, dialog closed, loading |
| Police.PoliceDashboard.LoadCases | src/components/PoliceDashboard.tsx:26-42 | a successful read replaces the list with one row per document, in order; a failed read keeps the list; loading ends either way |
| Police.PoliceDashboard.ViewCase | src/components/PoliceDashboard.tsx:44-47 | selects the row and opens the dialog; nothing else changes |
| Police.PoliceDashboard.Shown | src/components/PoliceDashboard.tsx:49-54 | the shown rows are an order-preserving subsequence of the loaded list |
| Clerk.WithDefaults | src/components/ClerkDashboard.tsx:20-34 | a present non-empty value is kept; a missing or empty one becomes '' for each of the twelve text fields, 0 for a missing age, 'Pending' for the judgement and 'Open' for the status, so the judgement and status are never empty |
| Clerk.DocToCase | src/components/ClerkDashboard.tsx:18-37 | keeps the id, applies the defaults to every field, and keeps present timestamps |
| Clerk.DefaultsIdempotent | src/components/ClerkDashboard.tsx:18-37 | applying the defaults to an already normalised case changes nothing |
| Clerk.DocToCaseIdempotent | src/components/ClerkDashboard.tsx:18-37 | a case read through `docToCase`, stored back and read again is the same case |
| Clerk.SubmitRequest | src/components/ClerkDashboard.tsx:106-135 | an edit sends an update of that case's id without `createdAt`, a new case sends a create with it; both carry the defaulted fields and a refreshed `updatedAt` |
| Clerk.UnchangedEditWritesSameFields | src/components/ClerkDashboard.tsx:106-127 | saving a loaded case without changes writes its own fields back |
| Clerk.CreatedCaseReadsBack | src/components/ClerkDashboard.tsx:131-134 | a created case, read back through `docToCase`, has exactly the fields that were written |
| Clerk.CheckPhoto | src/components/ClerkDashboard.tsx:65-87 | no file, else a type not starting with "image/" is refused, else a size above 153,600 bytes is refused, else the file is accepted; each outcome iff its condition |
| Clerk.PhotoExamples | src/components/ClerkDashboard.tsx:76-87 | an image of exactly 153,600 bytes passes, one byte more does not; a text file is refused |
| Clerk.SearchCases | src/components/ClerkDashboard.tsx:163-167 | the shown cases are an order-preserving subsequence; a case is shown iff it satisfies `Clerk.MatchesClerkSearch`: its case number, name or crime type contains the term ignoring case; every copy of a matching case is kept; an empty term shows all |
| Clerk.IdentityNumberNotSearched | src/components/ClerkDashboard.tsx:163-167 | changing a case's identity number never changes whether the search matches it |
| Clerk.ClerkDashboard.constructor | src/components/ClerkDashboard.tsx:40-49 | empty list, closed form holding only status 'Open', loading |
| Clerk.ClerkDashboard.OnSnapshot | src/components/ClerkDashboard.tsx:54-57 | the list becomes the snapshot's documents through `docToCase`, in order; loading ends |
| Clerk.ClerkDashboard.OnSnapshotError | src/components/ClerkDashboard.tsx:58-61 | a failed subscription ends loading |
| Clerk.ClerkDashboard.PhotoChange | src/components/ClerkDashboard.tsx:65-87 | no file clears the preview and the form's photo; a refused file sets its error and leaves the form; an accepted file clears the error |
| Clerk.ClerkDashboard.RemovePhoto | src/components/ClerkDashboard.tsx:317-321 | clears the preview and the form's photo and keeps every other form field |
| Clerk.ClerkDashboard.Submit | src/components/ClerkDashboard.tsx:102-145 | sends the submit request; on success the form is back to its initial closed state, on failure nothing changes |
| Clerk.ClerkDashboard.StartAdd | src/components/ClerkDashboard.tsx:194 | opens the form and changes nothing else, so the form contents and the case being edited are kept |
| Clerk.RetryAfterFailedSave | src/components/ClerkDashboard.tsx:102-145 | after a failed save, reopening the form and saving again sends the same write, and success then resets the form |
| Clerk.ClerkDashboard.Edit | src/components/ClerkDashboard.tsx:147-153 | loads the case into the form and opens it in edit mode |
| Clerk.ClerkDashboard.Cancel | src/components/ClerkDashboard.tsx:155-161 | returns to the initial closed form, whatever the state before |
| Clerk.ClerkDashboard.Shown | src/components/ClerkDashboard.tsx:163-167 | an order-preserving subsequence of the list, and the whole list for an empty term |
| Clerk.EditThenSave | src/components/ClerkDashboard.tsx:147-153 | editing a case and saving it unchanged writes the case back as it was and closes the form |
| Auth.ResolveUser | src/AuthContext.tsx:28-41 | a user exists iff there is a credential and a profile; its id and email are the credential's, its role the profile's; the full name falls back to "No Name", the username to the credential's email |
| Auth.ProfileOf | src/AuthContext.tsx:30-33 | a lookup yields a profile exactly when the document was found, and then it is the found document |
| Auth.EventRequests | src/AuthContext.tsx:27-49 | no credential sends nothing; otherwise the profile lookup and nothing else, plus a sign-out iff the lookup finds no document (not when it fails) |
| Auth.AuthProvider.constructor | src/AuthContext.tsx:23-24 | no user, loading |
| Auth.AuthProvider.OnAuthStateChanged | src/AuthContext.tsx:27-51 | the requests are the event's; unless the profile read fails, the user becomes the resolved one and loading ends; a failed read leaves the user and the loading flag as they were |
| Auth.FirstEventRendersChildren | src/AuthContext.tsx:26-60 | the first event renders the application iff its profile read does not fail; after a failed first read nothing is rendered and nobody is signed in |
| Auth.AuthProvider.OnAuthStateChangedSettled | src/AuthContext.tsx:27-51 | the guarded callback: the same requests, the resolved user (none after a failed read), and loading ends after every event |
| Auth.SettledFirstEventRendersChildren | src/AuthContext.tsx:50-60 | with the guarded callback the first event always renders the application |
| Auth.UseAuthInsideProvider | src/AuthContext.tsx:56-60 | inside the provider, `useAuth` returns exactly the provider's user and loading flag |
| Auth.UseAuth | src/AuthContext.tsx:14-19 | fails with the provider message exactly when there is no provider, else returns its value |
| Shell.RoleTitle | src/App.tsx:26-33 | "Dashboard" exactly for a text outside the three roles |
| Shell.RoleColor | src/App.tsx:35-42 | gray exactly for a text outside the three roles |
| Shell.RoleTitlesAndColorsDistinct | src/App.tsx:26-42 | distinct roles get distinct titles and distinct colours |
| Shell.DashboardsFor | src/App.tsx:72-74 | a role shows exactly its own dashboard; any other text shows none |
| Shell.Render | src/App.tsx:22-74 | the login screen iff nobody is signed in; otherwise the header carries the role's title and colour and the user's full name, and below it the role's own dashboard for a known role and none for any other text |
| Shell.DispatchIsOneToOne | src/App.tsx:72-74 | two different known roles never show the same dashboard |
| Login.SignInErrorMessage | src/components/LoginScreen.tsx:29-38 | the three known codes give their fixed messages, any other code the service's message |
| Login.KnownCodesDistinguished | src/components/LoginScreen.tsx:30-35 | the three known codes give three different messages |
| Login.LoginScreen.constructor | src/components/LoginScreen.tsx:11-14 | empty fields and error, not loading |
| Login.LoginScreen.SubmitLogin | src/components/LoginScreen.tsx:16-28 | an empty field sets the error and sends nothing; otherwise the error is cleared, loading starts and sign-in is requested |
| Login.LoginScreen.SignInSettled | src/components/LoginScreen.tsx:29-41 | a failure shows its mapped message; loading ends either way |
| Login.Attempt | src/components/LoginScreen.tsx:16-42 | a filled-in attempt requests sign-in, ends with loading over, and leaves no error on success |
| Admin.FilterCases | src/components/AdminDashboard.tsx:107-156 | the shown rows are an order-preserving subsequence; a row is shown iff it satisfies `Admin.Keep`: the search (`Admin.PassesSearch`, case sensitivity as in the investigator view), the inclusive day range (`Admin.PassesDates`), the exact officer name (`Admin.PassesClerk`), the case-insensitive identity or case number (`Admin.PassesIdentifier`) and the case-sensitive address part (`Admin.PassesPinCode`); every copy of a kept row is kept; with nothing set, the whole list |
| Admin.ClearingFiltersWidens | src/components/AdminDashboard.tsx:107-156 | unsetting filters or the search keeps every row shown before, in the same order |
| Admin.DateRangeInclusive | src/components/AdminDashboard.tsx:123-134 | with both bounds on one day, a row passes iff it was created between that day's first and last millisecond |
| Admin.MissingFieldsFilterAsEmpty | src/components/AdminDashboard.tsx:111-152 | a missing case number, name, identity number, crime type or address filters like an empty one |
| Admin.MissingOfficerIsUndefined | src/components/AdminDashboard.tsx:138 | a row without an officer name is kept by the clerk choice "undefined", a row with an empty one is not |
| Admin.IdentityNumberCaseSensitivity | src/components/AdminDashboard.tsx:111-149 | identity number "ab12" is not found by search "AB" but is kept by the identifier filter "AB" |
| Admin.ClerkNames | src/components/AdminDashboard.tsx:97-100 | the names listed are exactly the non-empty listed names of users with role clerk |
| Admin.UniqueClerks | src/components/AdminDashboard.tsx:95-105 | strictly ascending, no duplicates, and holding exactly the non-empty names of the clerks |
| Admin.UniqueClerksDeterminedBySet | src/components/AdminDashboard.tsx:103-104 | any strictly ascending list of exactly those names is the choice list |
| Seqs.Dedup | src/components/AdminDashboard.tsx:103 | no duplicates, the same members |
| Text.SortStrings | src/components/AdminDashboard.tsx:104 | strictly ascending, the same members, the same length |
| Text.PrecedesIrreflexive | src/components/AdminDashboard.tsx:104 | no name comes before itself in the sort order |
| Text.PrecedesTransitive | src/components/AdminDashboard.tsx:104 | the sort order is transitive |
| Text.PrecedesTotal | src/components/AdminDashboard.tsx:104 | of two different names, one comes before the other |
| Text.LowerFoldsOnlyUppercase | src/components/PoliceDashboard.tsx:50 | lower-casing keeps the length, leaves no upper-case letter and changes nothing else |
| Text.LowerIdempotent | src/components/AdminDashboard.tsx:142-145 | lower-casing an already lower-cased term changes nothing |
| Text.ContainsIffOccurs | src/components/PoliceDashboard.tsx:52 | `includes` holds iff the term occurs at some index of the text |
| Admin.CountStatus | src/components/AdminDashboard.tsx:266-269 | a count never exceeds the list length |
| Admin.CountStatusIsFilterLength | src/components/AdminDashboard.tsx:266-269 | the count is the length of the list filtered to rows whose stored status equals the text |
| Admin.ComputeStats | src/components/AdminDashboard.tsx:264-271 | totals are the list lengths; each of the four status counts is the number of rows with exactly that status; together they add up to at most the total |
| Admin.StatusCountsPartition | src/components/AdminDashboard.tsx:264-271 | the four status counts plus the rows with any other status make up the whole list |
| Admin.CreatedOpenCaseCounted | src/components/AdminDashboard.tsx:264-271 | a case the clerk creates as 'Open' (or with no status) adds one case and one open case, and leaves the other counts |
| Admin.SetRole | src/components/AdminDashboard.tsx:239 | same length and order; users with the id get the role, every other user is unchanged |
| Admin.SetRoleIdempotent | src/components/AdminDashboard.tsx:239 | changing a role twice is changing it once |
| Admin.SetCurrentRoleIsNoOp | src/components/AdminDashboard.tsx:239 | setting users to the role they already have leaves the list as it was |
| Admin.NewUserProblem | src/components/AdminDashboard.tsx:198-205 | any empty field gives 'Please fill all fields.' first; then a password shorter than 6 gives the length error; otherwise no problem |
| Admin.AddUserErrorMessage | src/components/AdminDashboard.tsx:225 | the email-in-use code gives its message, every other code the service's message |
| Admin.NewProfile | src/components/AdminDashboard.tsx:210-216 | the profile holds the new id, the typed full name, the email as email and username, and the chosen role |
| Admin.RoleBadgeColor | src/components/AdminDashboard.tsx:255-262 | gray exactly for a text outside the three roles |
| Admin.AdminDashboard.constructor | src/components/AdminDashboard.tsx:31-62 | empty lists, no filters, closed dialogs, an empty add-user form with role police, loading |
| Admin.AdminDashboard.LoadData | src/components/AdminDashboard.tsx:69-92 | reads the cases and, only if that succeeds, the users; each successful read replaces its list; loading ends |
| Admin.AdminDashboard.OpenFilterDialog | src/components/AdminDashboard.tsx:158-166 | the draft becomes a copy of the applied filters and the dialog opens |
| Admin.AdminDashboard.ApplyFilters | src/components/AdminDashboard.tsx:168-176 | the applied filters become the draft and the dialog closes |
| Admin.AdminDashboard.ClearFilters | src/components/AdminDashboard.tsx:178-185 | only the draft is emptied |
| Admin.AdminDashboard.ClearGlobalFilters | src/components/AdminDashboard.tsx:187-193 | the applied filters are emptied; the search box is kept |
| Admin.AdminDashboard.ChooseClerk | src/components/AdminDashboard.tsx:567 | the "all" entry clears the draft's clerk, any other entry sets it |
| Admin.AdminDashboard.CancelAddUser | src/components/AdminDashboard.tsx:710-717 | closes the dialog, clears the error and empties the form, with the role back to police |
| Admin.AdminDashboard.ViewCase | src/components/AdminDashboard.tsx:231-234 | selects the row and opens the dialog |
| Admin.AdminDashboard.RoleChange | src/components/AdminDashboard.tsx:236-243 | the role write is sent; on success the list takes the new role, on failure it is unchanged |
| Admin.AdminDashboard.AddUser | src/components/AdminDashboard.tsx:196-229 | a failed check sets its message and sends nothing; otherwise the credential is requested; a refused credential stops there (no profile write, no reload); a failed profile write stops after it (no reload); either failure shows its message and keeps the form; on full success the reload replaces the cases and users as `LoadData` does, the form is reset (role police) and the dialog closed |
| Admin.AdminDashboard.Shown | src/components/AdminDashboard.tsx:107-156 | an order-preserving subsequence of the list, and the whole list with nothing set |
| Admin.OpenThenApply | src/components/AdminDashboard.tsx:158-176 | opening the filter dialog and applying it at once leaves the applied filters and the shown rows as they were |

## Left out

- Backend transport: reads, writes, account creation, sign-in and sign-out are not performed. A method returns the requests it would send, and the outcome is a parameter. That parameter can express failure wherever the source can observe one: a failed case or user read, a failed write, a failed sign-in, and a failed profile lookup in the sign-in-state callback.
- Sign-in-state events that overlap while a profile lookup is still pending are not modelled; each event is handled to completion before the next.
- The logout handler of `src/App.tsx` only calls the backend's sign-out and logs a failure, so it has no state to model.
- Live-subscription timing, row ordering of the backend's queries, and races between concurrent editors are not modelled.
- The photo read (`FileReader`, base64 encoding) and its late update of the form are not modelled. `Clerk.ClerkDashboard.PhotoChange` stops after the checks.
- Clerk.ClerkDashboard.PhotoChange and Clerk.ClerkDashboard.RemovePhoto: resetting the file input (`e.target.value = ''`, `input.value = ''`) is a browser side effect and is not modelled.
- Date filter (`Admin.PassesDates`): local-timezone date parsing and `setHours` are the two functions of a `Calendar` parameter. An unparsable date (an invalid `Date`, whose comparisons are all false) is not modelled.
- The `new Date()` fallbacks for missing timestamps read the clock; they are a `now` parameter.
- Lower-casing (`Text.Lower`) is ASCII only; full Unicode case mapping is not modelled.
- Sort order (`Text.Precedes`): strings are compared character by character. JavaScript's default sort compares UTF-16 code units, so the order can differ outside the Basic Multilingual Plane.
- Admin.NewUserProblem: the password length is counted in characters, not UTF-16 code units.
- A `NaN` age and stored values that are not text (numbers or other values cast to strings) are not modelled. Stored text fields are either missing or text.
- Missing text fields of user profiles are the empty text. Every place this model covers reads them through `||` or a comparison, where a missing value and the empty text behave alike. The exception outside the model is the role badge label (`src/components/AdminDashboard.tsx:504`), which fails on a missing role but not on an empty one.
- Rows are compared as whole values. Rows read from the store carry distinct document ids, so the "every copy is kept" clauses of the searches matter only for lists the store cannot produce.
- JSX rendering, styling, `alert` and `console` output are not modelled. So are the demonstration fixtures of `src/lib/mockData.ts`.
- The clerk and administrator views carry their own copies of `getStatusColor`, identical to the investigator's; `Police.StatusColor` stands for all three.
- `src/types/index.ts` declares no photo field on a case, but the clerk view reads and writes `photoBase64`; the model's case fields include it.

## Findings

| source | as written | input that shows it | evidently intended | confidence | as-written member | corrected member |
|---|---|---|---|---|---|---|
| src/AuthContext.tsx:27-50 | the callback awaits the profile read with no `try`/`catch`, so a rejected read skips `setLoading(false)`; loading stays true and `{!loading && children}` renders nothing | the first event carries a credential and the profile read fails (offline, permission denied) | a failed read ends loading with nobody signed in, as every other outcome does | medium, not executed | Auth.FirstEventRendersChildren | Auth.SettledFirstEventRendersChildren |
