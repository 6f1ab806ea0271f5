# Research portal: sessions, invitations, errors and the faculty listing

This project is a Dafny model of the core of a university research portal. The portal has a
Node/Express server and a Next.js client. Six pieces are modelled:

- **Invitation manager** (`Invitations`, from `server/src/controllers/admin.controller.js`).
  An administrator invites a researcher by email, lists the invitations, resends or deletes
  one, or creates a researcher profile directly. The user collection is a `map<Id, Account>`
  held by the class `UserStore`. Its methods update that map in place and keep emails unique.
- **Authenticated request pipeline** (`Api`, from `client/src/lib/api.js`).
  `requestWithAuth` attaches the stored access token. On a 401 it refreshes the token once,
  re-issues the request, and turns the final error into an `ApiError`. The login and logout
  calls are modelled too. The server is an oracle `Request -> Reply`. The class `Client`
  records every request it sends.
- **Token store** (`TokenStore`, from `client/src/lib/indexdb.js`). The IndexedDB object
  store `tokens` is a map from record id to record. The client only ever writes, reads and
  deletes the key `"accessToken"`.
- **Session state and route guards** (`Auth`, from `client/src/lib/auth.js`). The three
  guards are decisions over `(loading, user)`. The class `AuthProvider` holds `user`,
  `loading` and the pushed routes, and changes them in `checkAuth`, the logins and `logout`.
- **Central error handler** (`ErrorHandler`, from `newErrorHandler.js`). An ordered list of
  rules in which a later match overrides an earlier one. `HandleError` is the rule-by-rule
  method. It is proved equal to the reference function `Respond`.
- **Faculty and department listing parser** (`LinePatterns` and `Faculties`, from
  `server/src/utils/populateData.js`). The two regular expressions
  `/^([A-Z]+)\s+(.+)$/` and `/^([A-Z]+)\s+(.+)\s+\(([A-Z]+)\)$/` are written out as greedy
  matchers with backtracking. Each matcher is proved sound and complete against a plain
  "shape" predicate. The loop over lines is the method `ParseLines`, proved against the fold
  `Scan`.

`Wrappers` holds the `Option` and `Result` datatypes.

Two behaviours of the code are worth stating up front:

- In `requestWithAuth`, the retry after a successful refresh is returned without `await`
  from inside the `try` (`client/src/lib/api.js:49`). A failing retry is therefore not
  caught: its classified error propagates and the refreshed token stays. The token is
  removed only when the refresh itself yields no token. Then the "Session expired" error is
  thrown and caught by the same `try`, the token is removed, and the original error is
  classified (`Api.RefreshFailureClearsToken`, `Api.RetryOutcomePropagates`).
- The invitation email text speaks of a 24-hour expiry. The stored expiry is 30 days
  (`admin.controller.js:34`), and that is what is modelled.

## Model

| member | source | states |
|---|---|---|
| TokenStore.Put | client/src/lib/indexdb.js:34-40 | `put` leaves the record `{id: 'accessToken', value, timestamp}` under that key; every other key and record is unchanged |
| TokenStore.Delete | client/src/lib/indexdb.js:72 | `delete('accessToken')` removes that key; every other key and record is unchanged |
| TokenStore.Lookup | client/src/lib/indexdb.js:54-58 | `get` yields a value iff a record exists under "accessToken", and then it is that record's `value`; otherwise null |
| TokenStore.Store.SaveToken | client/src/lib/indexdb.js:27-45 | the store in place becomes `Put` of the old store |
| TokenStore.Store.GetToken | client/src/lib/indexdb.js:47-63 | returns exactly what `Lookup` gives for the store (the stored token iff a record exists), and nothing changes |
| TokenStore.Store.RemoveToken | client/src/lib/indexdb.js:65-77 | the store in place becomes `Delete` of the old store |
| TokenStore.SaveThenGet | client/src/lib/indexdb.js:34-58 | round trip: after saving `v`, reading gives `v` |
| TokenStore.SaveOverwrites | client/src/lib/indexdb.js:34-58 | after saving `a` and then `b`, reading gives `b` |
| TokenStore.RemoveThenGet | client/src/lib/indexdb.js:54-72 | after removing, reading gives null, whatever was stored |
| TokenStore.OtherRecordsUntouched | client/src/lib/indexdb.js:35-72 | save and remove never add, drop or change a record under any key other than "accessToken" |
| Api.Contains | client/src/lib/api.js:70 | `includes` holds iff `sub` is a prefix of some suffix of `s` |
| Api.StatusOr500 | client/src/lib/api.js:63 | the status is never 0, so a reply's status is never mistaken for the network-failure status 0 that `Classify` reserves |
| Api.Classify | client/src/lib/api.js:62-77 | status is 0 iff there is no data message and `error.message` contains "Network Error", with the connectivity text; otherwise it is the response status or 500; the message is the data message if any, else `error.message`, else the fixed text |
| Api.Authorize | client/src/lib/api.js:25-33 | the bearer header is set to the token iff the stored token is truthy; url, body and other headers are unchanged |
| Api.Refresh | client/src/lib/api.js:81-104 | true iff the refresh reply is a success carrying a non-empty accessToken; the token is then saved, and otherwise the store is unchanged |
| Api.Client.RefreshAccessToken | client/src/lib/api.js:81-104 | never fails; its result and new store are those of `Refresh`, and exactly the refresh POST is sent |
| Api.Client.RequestWithAuth | client/src/lib/api.js:24-79 | the bounded loop returns the result, leaves the store and sends the requests that the recursive definition `Pipeline` prescribes |
| Api.Client.Login | client/src/lib/api.js:107-141 | succeeds iff the login reply does, returning its data; a token is saved only when the reply carries one; a failure is an ApiError with the data message or "Login failed" and the status or 500 |
| Api.Client.Logout | client/src/lib/api.js:151-161 | the token is removed iff the logout POST succeeds; a failure is an ApiError with the data message or "Logout failed" |
| Api.FirstSuccessNoRefresh | client/src/lib/api.js:35-37 | a call that succeeds first time returns `response.data`, sends one request and leaves the store alone |
| Api.AtMostOneRefresh | client/src/lib/api.js:40-49 | one to three requests: the call; a refresh iff the first reply is a 401 on a non-refresh url with budget left; a re-issue iff the refresh succeeds, equal to the first request with the new bearer; at most one refresh |
| Api.RefreshFailureClearsToken | client/src/lib/api.js:45-77 | when the refresh yields no token, the token is removed and the original error is classified, with status 401 unless it is a network failure |
| Api.RetryOutcomePropagates | client/src/lib/api.js:45-49 | after a successful refresh the retried call's own success or classified error is the result, and the new token stays stored |
| Api.RefreshEndpointExempt | client/src/lib/api.js:40-44 | a call to the refresh endpoint sends exactly one request |
| Auth.WithAuth | client/src/lib/auth.js:118-133 | renders iff loaded with a user; redirects iff loaded without one, and then to "/researcher-login" |
| Auth.WithAdminAuth | client/src/lib/auth.js:135-154 | renders iff loaded with an admin user; nothing while loading; "/admin-login" with no user; "/" for a non-admin user |
| Auth.WithResearcherAuth | client/src/lib/auth.js:156-175 | renders iff loaded with a researcher user; nothing while loading; "/researcher-login" with no user; "/" for a non-researcher user |
| Auth.RolesExclusive | client/src/lib/auth.js:107-109 | isAdmin and isResearcher are never both true, and either implies isAuthenticated |
| Auth.ResearcherAtAdminView | client/src/lib/auth.js:140-150 | a researcher at an admin view is never shown it and never sent to the admin login; once loaded they are sent to "/" |
| Auth.NoDecisionWhileLoading | client/src/lib/auth.js:123-171 | while loading, every guard renders nothing and redirects nowhere |
| Auth.LoggedInUser | client/src/lib/auth.js:55-59 | the session user carries the portal's role and the reply user's id and email |
| Auth.AuthProvider.constructor | client/src/lib/auth.js:13-14 | a new provider has no user and is loading |
| Auth.AuthProvider.CheckAuth | client/src/lib/auth.js:18-46 | loading ends false; with no truthy token the user is unchanged; a payload that does not decode clears the user; otherwise the user holds the payload's id, email and role |
| Auth.AuthProvider.Login | client/src/lib/auth.js:51-85 | sends exactly the portal's login request; returns true iff the API login succeeds, and then the user has the portal's role; on failure the user is unchanged; loading ends false either way |
| Auth.AuthProvider.Logout | client/src/lib/auth.js:87-97 | whether or not the API logout fails, the token is removed, the user cleared and "/" pushed |
| ErrorHandler.LastMatch | newErrorHandler.js:37-76 | the chosen rule matches and is in the list; there is none iff no rule matches |
| ErrorHandler.LastMatchUnrolled | newErrorHandler.js:37-76 | the deciding rule is the last matching one in source order: expired token, invalid token, duplicate key, file size, cast, validation |
| ErrorHandler.HandleError | newErrorHandler.js:12-91 | the handler, with its locals reassigned rule by rule, equals the ordered-rule definition `Respond` |
| ErrorHandler.NotFoundError | newErrorHandler.js:5-9 | the error has status 404 and message "Not Found - " followed by the url, and matches no rule |
| ErrorHandler.ThrowsExactly | newErrorHandler.js:37-65 | the handler itself throws iff a ValidationError lacks `errors` or a duplicate-key error lacks `keyValue` |
| ErrorHandler.BodyShape | newErrorHandler.js:84-90 | success is false; status is "error" iff the code is at least 500, else "fail"; a stack only in development and only for such codes; details iff the error is a ValidationError |
| ErrorHandler.Defaults | newErrorHandler.js:14-15 | with no rule matching, the status is the error's or 500 and the message the error's or "Something went wrong" |
| ErrorHandler.ValidationErrorIs422 | newErrorHandler.js:37-41 | a ValidationError with no overriding code gives 422 "Validation Error" with its sub-error messages |
| ErrorHandler.CastErrorIs400 | newErrorHandler.js:44-53 | a CastError gives 400, with "Invalid path: value" unless the file-size rule overrides the message |
| ErrorHandler.LaterRulesOverride | newErrorHandler.js:56-76 | code 11000 overrides the validation and cast rules with 409 and the duplicate text; the token rules override it with 401 |
| ErrorHandler.DuplicateNamesField | newErrorHandler.js:56-65 | the duplicate message names the first `keyValue` field when it is non-empty, else the fixed text |
| ErrorHandler.NotFoundResponds | newErrorHandler.js:5-9 | an unknown route ends as a 404 "fail" response naming the url |
| Invitations.StatusAt | server/src/controllers/admin.controller.js:130-136 | expired iff the expiry is strictly before now |
| Invitations.Invitations | server/src/controllers/admin.controller.js:121-146 | one entry per researcher with both invite fields, active or not, and no others, with its email, creation time, expiry and status |
| Invitations.UserStore.FindByEmail | server/src/controllers/admin.controller.js:17 | finds iff some account, active or not, has the email |
| Invitations.UserStore.InviteResearcher | server/src/controllers/admin.controller.js:12-56 | a taken email gives BadRequest and no change; otherwise exactly one inactive researcher is added holding the token's hash and an expiry 30 days out, and the plaintext is mailed |
| Invitations.UserStore.AddResearcherProfile | server/src/controllers/admin.controller.js:59-105 | a taken email gives BadRequest and no change; otherwise exactly one active researcher with the profile and password is added, the credentials are mailed and the summary returned |
| Invitations.UserStore.ResendInvitation | server/src/controllers/admin.controller.js:149-178 | NotFound and no change unless the id is a researcher with a truthy token; otherwise only that account's token hash and expiry change and the new plaintext is mailed |
| Invitations.UserStore.DeleteInvitation | server/src/controllers/admin.controller.js:181-196 | NotFound for an unknown id; otherwise exactly that record, of any role, is removed |
| Invitations.InsertKeepsUnique | server/src/controllers/admin.controller.js:17-44 | adding an account under a fresh id with an unused email keeps emails unique |
| Invitations.ReplaceKeepsUnique | server/src/controllers/admin.controller.js:165-167 | rewriting an account without changing its email keeps emails unique |
| Invitations.InvitationListedPending | server/src/controllers/admin.controller.js:122-140 | a new invitation is listed, pending up to and including its expiry, and no other entry changes |
| Invitations.ReissueInvalidatesOldToken | server/src/controllers/admin.controller.js:158-167 | a resend keeps email, role and activity, sets a 30-day expiry, and with an injective hash the old plaintext no longer matches |
| Invitations.InviteExpireResend | server/src/controllers/admin.controller.js:121-167 | invited and pending at t0, expired 31 days later, pending again after a resend with a new expiry, and the first token rejected |
| LinePatterns.MatchFacultySound | server/src/utils/populateData.js:38 | every faculty match has the shape code, white space, title of a line without terminators |
| LinePatterns.MatchFacultyComplete | server/src/utils/populateData.js:38 | every line of the faculty shape matches, with the shape's code as group 1 |
| LinePatterns.MatchFacultyExact | server/src/utils/populateData.js:38 | when the title does not start with white space, the groups are exactly the shape's code and title |
| LinePatterns.MatchDepartmentSound | server/src/utils/populateData.js:48 | every department match has the shape code, white space, title, white space, parenthesised code |
| LinePatterns.MatchDepartmentComplete | server/src/utils/populateData.js:48 | every line of the department shape matches, with the shape's two codes as groups 1 and 3 |
| LinePatterns.MatchDepartmentExact | server/src/utils/populateData.js:48 | with a title not starting with white space and one white-space character before the parenthesis, the groups are exactly the shape's pieces |
| LinePatterns.DepartmentLineMatchesFaculty | server/src/utils/populateData.js:38-48 | a department line without line terminators also matches the faculty pattern, with the same code |
| LinePatterns.FacultyPatternExample | server/src/utils/populateData.js:38 | "FSC Computer Science (CSC)" matches the faculty pattern with the title "Computer Science (CSC)" |
| LinePatterns.DepartmentPatternExample | server/src/utils/populateData.js:48 | the same line matches the department pattern with groups FSC, Computer Science, CSC |
| LinePatterns.CarriageReturnFacultyExample | server/src/utils/populateData.js:38 | with a carriage return before the parenthesis, the faculty pattern fails |
| LinePatterns.CarriageReturnDepartmentExample | server/src/utils/populateData.js:48 | with a carriage return before the parenthesis, the department pattern still matches |
| Faculties.SplitLines | server/src/utils/populateData.js:21 | the split gives at least one line and no line contains a newline |
| Faculties.JoinSplit | server/src/utils/populateData.js:21 | joining the split lines with newlines gives the listing back |
| Faculties.ClassifyLine | server/src/utils/populateData.js:29-59 | a line is skipped iff it is blank or starts with a header; faculty and department results are the patterns' matches; with the faculty pattern first, any faculty match wins |
| Faculties.Step | server/src/utils/populateData.js:27-59 | a skipped line changes nothing; faculty codes and departments only grow; at most one department per line |
| Faculties.ParseLines | server/src/utils/populateData.js:23-60 | the loop builds exactly the faculty map and department list of the fold `Scan` |
| Faculties.SaveFaculties | server/src/utils/populateData.js:63-69 | every parsed faculty is upserted by code and other rows are kept |
| Faculties.SaveDepartments | server/src/utils/populateData.js:72-77 | departments are upserted by code in list order |
| Faculties.Populate | server/src/utils/populateData.js:12-85 | the counts are the number of distinct faculty codes and the number of departments parsed, and the tables are the upserts of both |
| Faculties.ScanConsistent | server/src/utils/populateData.js:42-57 | the cursor names a recorded faculty, and every department's faculty is a recorded code |
| Faculties.ScanLastTitleWins | server/src/utils/populateData.js:43 | a code is recorded iff some faculty line names it, and a repeated code keeps the last title |
| Faculties.DepartmentsBounded | server/src/utils/populateData.js:54 | there are never more departments than lines |
| Faculties.NoDepartmentsBeforeFaculty | server/src/utils/populateData.js:49 | before any faculty line there is no cursor and no department |
| Faculties.NoDepartmentsWithoutTerminators | server/src/utils/populateData.js:38-49 | as written, a listing whose lines hold no line terminator yields no department |
| Faculties.SampleLineNotSkipped | server/src/utils/populateData.js:29-35 | the sample department line is neither blank nor a header |
| Faculties.ShadowedDepartmentExample | server/src/utils/populateData.js:38-49 | as written the sample department line becomes a faculty; with the department pattern first it becomes a department |
| Faculties.ScanCurrentIsLastFaculty | server/src/utils/populateData.js:42 | the cursor is the faculty of the most recent faculty line |
| Faculties.ScanAppend | server/src/utils/populateData.js:37-59 | one more line: a faculty line moves the cursor and records code and title; a department line after some faculty line appends exactly one department with code = group 3, title = group 2, faculty = the most recent faculty's code; any other line changes nothing |
| Faculties.DepartmentFirstRecordsDepartment | server/src/utils/populateData.js:48-58 | with the department pattern first, a department-shaped line after a faculty line appends exactly one department: the parenthesised code, the middle group as title (the shape's title when it starts with a non-space and one space precedes the parenthesis), and the most recent faculty's code |

## Left out

- MongoDB and Mongoose calls (`findOne`, `create`, `find`, `save`, `findByIdAndDelete`, `findOneAndUpdate`) are in-memory maps. Write failures and concurrent writers are not modelled.
- `crypto.randomBytes` is the `plaintext` parameter. SHA-256 is the store's `hash` function, assumed injective only where a lemma says so.
- Invitations.Invitations: `getInvitations` returns an array in database order; the model returns a map keyed by id, so that order is not modelled.
- Clocks are the integer `now`, in milliseconds. The ISO day strings of the invitation list are not modelled. The list keeps the millisecond values.
- Email sending is the `outbox` field. The email service's text and its failures are not modelled.
- `getResearchers` in the invitation controller is a single query with a field projection and is not part of this model.
- Invitations.UserStore.AddResearcherProfile: the password hashing done by the user schema's pre-save hook is not part of this model, so the stored password is the generated one.
- Invitations.UserStore.Valid: unique emails are kept by the controller's own check; the database's unique index is not part of this model.
- The axios transport is the `server` oracle. Request timeouts, cookies and the other API wrappers of `api.js` (`verifyToken`, `completeProfile`, articles and researchers) are not modelled; they are thin callers of `requestWithAuth` or of other endpoints.
- Console logging in `api.js`, `auth.js`, the error handler and the populate script is left out.
- IndexedDB opening and its upgrade callback are not modelled. Store operations always succeed, so the rejections of `saveToken`, `getToken` and `removeToken` are not modelled.
- Api.Classify: axios errors without a `message` field and `data.message` values that are not strings are not modelled; absent and empty are the same.
- Auth.AuthProvider.CheckAuth: JWT payload decoding (`atob`, `JSON.parse`) is the `decode` parameter. A `getToken` rejection, which the same `catch` would turn into a cleared user, is not modelled.
- Auth.AuthProvider.Login: the intermediate `loading = true` render state is not visible in the contract. Only `id` and `email` of the reply's `user` object are kept.
- React rendering, hooks and effects are not modelled. A guard's redirect stands for its effect pushing the path, and `navigations` records `router.push`.
- The error handler's logging and the `err.constructor.name` it reads are left out. `process.env.NODE_ENV === 'development'` is the `development` parameter.
- ErrorHandler.HandleError: `Object.values(err.errors)` is modelled as the list of sub-error messages, and `Object.keys(err.keyValue)` as the list of key names.
- Reading the listing file is the `data` parameter. The logger call and the `catch` that logs and rethrows database errors (`populateData.js:79-89`) are not modelled.
- Faculties.SaveFaculties: it visits codes in an arbitrary order, not in the JavaScript `Map` insertion order. The codes are distinct, so the saved table is the same.

## Findings

| source | as written | input that shows it | evidently intended | confidence | as-written member | corrected member |
|---|---|---|---|---|---|---|
| server/src/utils/populateData.js:38-49 | The faculty pattern `/^([A-Z]+)\s+(.+)$/` is tried first and accepts every "CODE text" line. So a department line is recorded as a faculty whose title includes "(CSC)", and the department pattern is reached only when a line terminator such as `\r` sits before the parenthesis. | the line "FSC Computer Science (CSC)" after a faculty line | the line is recorded as department CSC, titled "Computer Science", under the current faculty | not executed | Faculties.NoDepartmentsWithoutTerminators | Faculties.DepartmentFirstRecordsDepartment |

The corrected order is `Order.DepartmentFirst`. The fold `Scan` and its lemmas `ScanConsistent`,
`ScanLastTitleWins`, `DepartmentsBounded` and `NoDepartmentsBeforeFaculty` hold for both orders.
`ParseLines` and `Populate` keep the order as written.
`Faculties.ShadowedDepartmentExample` shows the two orders on the sample line.
