# Campus Care: issue and account rules in Dafny

Campus Care is a campus grievance app. Students report issues, and Faculty and
Admin staff triage and resolve them. Only the server holds decision logic,
and this project models that logic:

- **Issue schema** (`issue_model.dfy`, module `IssueModel`). It models
  `backend/models/issue.js`. An issue has an id, a reporter, a title, an
  optional description, a status from the enum `Pending | In Progress |
  Resolved`, and the `sensitive` and `anonymous` flags. `NewIssue` builds a
  document and validates it as saving does. The reporter and title are
  required, an empty title fails, the status must be an enum name and
  defaults to Pending, and both flags default to false.
- **Issue handlers** (`issue_routes.dfy`, module `IssueRoutes`). They model
  `backend/routes/issues.js`. `IssueStore` holds the issues in store order.
  - `Create` appends one record.
  - `ListAll` and `ListUser` are pure filters: `Find` is `Issue.find` on a
    query document.
  - `UpdateStatus` carries out the handler's checks in order and is proved
    against the pure policy function `StatusUpdate`.
- **Account handlers** (`auth_routes.dfy`, module `AuthRoutes`). They model
  `backend/routes/auth.js`. `UserTable` holds the accounts in store order.
  - `Signup` appends one record.
  - `Login` and `GetMe` are read-only.
  - `UpdateMe` rewrites the caller's record through `Edit`.
- **Shared values** (`common.dfy`, module `Common`). These are optional
  request fields, the authenticated caller `{id, role}`, the HTTP codes, and
  `Supplied`. `Supplied` is JavaScript truthiness of a string field: present
  and non-empty.

The caller that the authentication middleware attaches is an input. For
`GET /me` and `PUT /me`, the middleware guarantees that the caller's record
is in the table, so those methods require it. The user model's password
check is a function parameter `matchPassword` that the model does not
interpret. A login token is modelled by its claims `{userId, role}` and its
lifetime, one day (86400 seconds).

The model follows what the handlers do, including where their own comments
promise more:

- The status handler is headed "Update issue status (Admin/Faculty)"
  (`backend/routes/issues.js:53`). Its only role check is Faculty on a
  sensitive issue (`backend/routes/issues.js:64-66`), so a Student, like an
  Admin, may set any status on any issue (`StatusUpdate`,
  `UpdateSucceedsFromAnyStatus`).
- The create handler is headed "Create new issue (student)"
  (`backend/routes/issues.js:7`). It checks no role, so any authenticated
  caller may create an issue. Only `GET /all` checks the role
  (`backend/routes/issues.js:32`).
- A duplicate email at signup is answered 400 "User already exists"
  (`backend/routes/auth.js:14-15`).
- Statuses have no order: Resolved may go back to Pending.
- `PUT /me` does not check that a new email is unused. The table therefore
  keeps ids distinct but not emails. `Login` uses the first account with the
  email, as `findOne` does.

Three methods, `IssueRoutes.SensitiveReportWalkthrough`,
`IssueRoutes.OpenReportWalkthrough` and `AuthRoutes.AccountWalkthrough`, are
scenario checks of the contracts. They run a short sequence of calls and
assert what the contracts let a client conclude. They have no counterpart in
the source.

## Model

| member | source | states |
|---|---|---|
| `Common.FirstIndex` | backend/routes/issues.js:60 | a lookup returns the position of the first element that matches, with no earlier element matching, or nothing exactly when no element matches |
| `Common.FirstIndexAgrees` | backend/routes/issues.js:60 | two lookups whose predicates agree position by position find the same position, so a lookup by id is not moved by changes to other fields |
| `IssueModel.ParseStatus` | backend/models/issue.js:7 | a status string is accepted exactly when it is one of the enum's three names, and it then denotes the status of that name |
| `IssueModel.ParseStatusName` | backend/models/issue.js:7 | every status's name is in the enum and parses back to that status |
| `IssueModel.NewIssue` | backend/models/issue.js:3-11 | validation succeeds exactly when a reporter and a non-empty title are given and any given status is an enum name. The stored record keeps the id, reporter, title and description, its status is Pending when none is given, and each flag is true only when given as true |
| `IssueModel.NewIssueDefaults` | backend/models/issue.js:6-9 | a document given only reporter and title gets status Pending, both flags false and no description |
| `IssueRoutes.Find` | backend/routes/issues.js:38-43 | `Issue.find` returns every record matching the query, as many times as it occurs in the store, and no other record |
| `IssueRoutes.FindEverything` | backend/routes/issues.js:42 | the empty query returns the whole store in store order |
| `IssueRoutes.IndexOfId` | backend/routes/issues.js:60-61 | lookup by id returns the position of the first record with that id, or nothing exactly when no record has it |
| `IssueRoutes.IndexOfStoredId` | backend/routes/issues.js:60 | in a store with distinct ids, looking up a stored record's id finds that record |
| `IssueRoutes.IndexOfSameIds` | backend/routes/issues.js:60 | lookup depends only on the ids, so changing other fields does not move what the lookup finds |
| `IssueRoutes.StatusUpdate` | backend/routes/issues.js:54-71 | 400 exactly when the status is not an enum name, whatever the id and role. 404 exactly when the status is valid and the id is unknown, whatever the role. 403 exactly when Faculty targets a sensitive issue. Otherwise 200 for every role. On failure the store is unchanged. On success only that issue's status changes, to the requested one, and the updated record is returned |
| `IssueRoutes.UpdateSucceedsFromAnyStatus` | backend/routes/issues.js:64-68 | any caller not barred by the Faculty/sensitive rule, a Student included, moves an issue from any status to any status, Resolved to Pending included |
| `IssueRoutes.StatusUpdateIdempotent` | backend/routes/issues.js:68-71 | repeating a successful update succeeds again and leaves the store and the returned record as the first update did |
| `IssueRoutes.FacultyExcludedFromSensitive` | backend/routes/issues.js:36-66 | a sensitive issue never appears in the Faculty query, and a Faculty update of it is answered 403 with the store unchanged, whatever the target status |
| `IssueRoutes.IssueStore.Create` | backend/routes/issues.js:8-22 | 201 exactly when the title is supplied, and then the store grows by exactly one record: it has the caller as reporter, status Pending, and flags that are true only when given as true. Its id is new and the old records are unchanged. Otherwise 500 and the store is unchanged. The store invariant is kept |
| `IssueRoutes.IssueStore.ListAll` | backend/routes/issues.js:30-46 | 403 with no records exactly when the role is neither Admin nor Faculty. Faculty gets exactly the non-sensitive issues, each as many times as it is stored. Admin gets every issue in store order |
| `IssueRoutes.IssueStore.ListUser` | backend/routes/issues.js:79-82 | for every role, 200 with exactly the issues whose reporter is the caller, sensitive or not, each as many times as it is stored |
| `IssueRoutes.IssueStore.UpdateStatus` | backend/routes/issues.js:54-71 | the handler's code, returned record and new store are those of the policy `StatusUpdate`. The id counter and the store invariant are kept |
| `AuthRoutes.IndexOfEmail` | backend/routes/auth.js:14 | `findOne({ email })` returns the first account with that email, or nothing exactly when no account has it |
| `AuthRoutes.Edit` | backend/routes/auth.js:66-72 | each of name, email and password is overwritten when supplied non-empty and kept otherwise. Id and role never change |
| `AuthRoutes.EditIdempotent` | backend/routes/auth.js:68-70 | applying the same profile edit twice equals applying it once |
| `AuthRoutes.EditNothing` | backend/routes/auth.js:68-70 | an edit with every field absent or empty leaves the account as it was |
| `AuthRoutes.UserTable.Signup` | backend/routes/auth.js:7-19 | 400 "All fields are required" exactly when a field is missing or empty. Otherwise 400 "User already exists" exactly when the email is taken. Otherwise 201 and exactly one account is appended with the given fields, a new id and an email no other account has. On any 400 the table is unchanged |
| `AuthRoutes.UserTable.Login` | backend/routes/auth.js:26-44 | 400 "Email and password are required" exactly when either is missing. With both given, success exactly when the first account with that email passes the password check, and every other outcome is the single 400 "Invalid credentials". On success the reply is 200, the token carries that account's id and role with a one-day lifetime, and the reply carries its role, name and email |
| `AuthRoutes.UserTable.GetMe` | backend/routes/auth.js:50-57 | 200 with exactly the name, email and role of the stored record with the caller's id |
| `AuthRoutes.UserTable.UpdateMe` | backend/routes/auth.js:63-79 | only the caller's record changes, by `Edit`, so the role never changes. The reply is 200 with the profile that `GetMe` then returns |
| `AuthRoutes.CredentialFailuresIndistinguishable` | backend/routes/auth.js:32-36 | login with an unknown email and login with a known email and a wrong password give identical replies |

## Left out

- The React front end (dashboards, forms, navigation, chat widget) only renders server data and calls the API.
- The authentication middleware is not part of this model. The caller is an input, and for `GET /me` and `PUT /me` its record is required to be in the table. Missing or invalid tokens (401) are not modelled.
- The user model is not part of this model. Password hashing, the body of `matchPassword` (a parameter here), and any schema rules it may add (a unique email index, a role enum) are not modelled. Signup therefore accepts any non-empty role.
- JWT signing, the secret and the token's encoding are left out. A token is its claims and its lifetime.
- Persistence failures are not modelled. The 500 answers for store errors are modelled only where the issue schema rejects a document (missing or empty title). The same goes for `populate` of the reporter's name, email and role in `GET /all` and for the `createdAt` timestamp.
- Issue and user ids are counters. ObjectId generation is not modelled, and neither is the 500 that `findById` gives for a malformed id string.
- Request fields are modelled as optional strings and optional booleans. JavaScript truthiness of other JSON values (`sensitive || false` on a non-boolean) and Mongoose's type casting are not modelled.
- Concurrent status updates (the later write wins) are out of scope for this sequential model.
- The reply bodies' message strings are modelled for the account handlers. For the issue handlers, only the codes and records are modelled.
