# Expense backend: a verified model of its decision logic and record store

This project models, in Dafny, the core of a small expense-tracking backend.
Users register and wait for an admin's approval. Approved users and admins log
in and receive role-scoped tokens. Authenticated callers file expense records
against one of three fixed companies, each of which has its own table. Admins
approve and delete users, and update and delete expenses.

What is modelled:

- `Normalise` (normalise.dfy): how `expense_type` becomes `Purchase`/0 or
  `Others`/1, and how `payment_type` becomes `Cash`/0, `UPI`/1 or nothing. Create
  and update use different payment rules.
- `Dates` (dates.dfy): the two-step date parse. It tries `YYYY-MM-DD` first (the
  full-date form of section 5.6 of RFC 3339, as `datetime.fromisoformat` reads
  it). It then falls back to `strptime(s, "%d-%m-%Y")` with that function's own
  field grammar. Round trips and the disjointness of the two forms are proved.
- `Models` (models.dfy): the User, Admin, Vendor and Expense rows with their
  column defaults, the principal a token resolves to, and `setattr` /
  `Model(**payload)` over the expense columns. An expense row is its id, its
  creation time and a map from column to value; a column never set reads as
  its default.
- `Crud` (crud.dfy): the exact-string company dispatch and the `Store` class.
  The class holds the user, admin and vendor tables and the three expense
  tables as sequences in insertion order. Its methods update those tables in
  place, as `db.add`, `db.delete` and `setattr` do. `Valid()` keeps ids and
  creation times increasing and emails and vendor names unique.
- `Deps`, `AuthRouter`, `AdminRouter`, `UserRouter` (deps.dfy, auth_router.dfy,
  admin_router.dfy, user_router.dfy): registration, the login decision chain and
  the three token resolvers. Each ends in a token, a record, or an HTTP error
  with the status and detail the handler raises.
- `ExpenseRouter` (expense_router.dfy): the create payload and the update
  change set. The change set is built step by step, as the handler builds its
  dict. Also here: the structural admin gate, delete, detail, file paths and the
  vendor duplicate check.
- `Sessions` (sessions.dfy): what the tokens `login` issues resolve to in each
  resolver.

Token decoding is a parameter `decoded: Option<Claims>`, where `None` stands
for `decode_token` raising `JWTError`. Password checking is a parameter
`verify: (string, string) -> bool`. Ids and `created_at` both come from one
monotone counter, `Store.clock`. An upload is given by its file name and by the
`{timestamp}_{random hex}` stem the handler would generate.

## Model

| member | source | states |
|---|---|---|
| `Normalise.Lower` | app/routers/expense_router.py:86 | `str.lower()`: the result has the input's length, with each ASCII capital replaced by its small letter and every other character kept |
| `Normalise.LowerIsCaseInsensitiveMatch` | app/routers/expense_router.py:86 | `s.lower() == w` for a lower-case word `w` holds exactly when `s` spells `w` in any mix of letter cases |
| `Normalise.NormaliseExpenseType` | app/routers/expense_router.py:85-91 | flag 0 and "Purchase" exactly when the input spells "purchase" ignoring case; every other input gives flag 1 and "Others"; the flag always agrees with the name |
| `Normalise.ExpenseTypeIdempotent` | app/routers/expense_router.py:208-214 | normalising a stored name again gives the same field, so the update rule maps stored values to themselves |
| `Normalise.PaymentTypeOnCreate` | app/routers/expense_router.py:93-102 | create: "cash" gives (0, "Cash") and "upi" gives (1, "UPI") in any case; anything else, absent included, gives (None, None); flag and name always agree |
| `Normalise.PaymentTypeOnUpdate` | app/routers/expense_router.py:234-240 | update: a supplied value gives (0, "Cash") exactly when it spells "cash", otherwise (1, "UPI"); flag and name always agree and are never None |
| `Normalise.PaymentPathsDiffer` | app/routers/expense_router.py:234-240 | create and update agree on a supplied value exactly when it spells "cash" or "upi"; on any other value create stores no flag and update stores the UPI flag |
| `Dates.ParseIso` | app/routers/expense_router.py:106 | `YYYY-MM-DD` parses only to a valid calendar date (years 1 to 9999) |
| `Dates.IsDayField` | app/routers/expense_router.py:109 | strptime's `%d`: an accepted field is one or two characters long and holds no dash |
| `Dates.IsMonthField` | app/routers/expense_router.py:109 | strptime's `%m`: every accepted month field is also an accepted day field |
| `Dates.FieldValue` | app/routers/expense_router.py:109 | the number a `%d` field spells is between 1 and 31, and for a `%m` field at most 12 |
| `Dates.DayFieldSpells` | app/routers/expense_router.py:109 | every `%d` field is one of the spellings of the day it stands for: two digits, or for days below 10 one digit or a space and one digit |
| `Dates.MonthFieldSpells` | app/routers/expense_router.py:109 | every `%m` field is one of the spellings of the month it stands for: two digits, or for months below 10 one digit |
| `Dates.DaySpellingIsField` | app/routers/expense_router.py:109 | conversely, every spelling of day `n` is a `%d` field that reads back as `n` |
| `Dates.MonthSpellingIsField` | app/routers/expense_router.py:109 | conversely, every spelling of month `n` is a `%m` field that reads back as `n` |
| `Dates.ParseDmy` | app/routers/expense_router.py:109 | `%d-%m-%Y` parses only to a valid calendar date |
| `Dates.DmySplit` | app/routers/expense_router.py:109 | a string split by its first two dashes is read field by field: day, month, then exactly four year digits |
| `Dates.DmyMeaning` | app/routers/expense_router.py:109 | `%d-%m-%Y` gives date `d` exactly when `d` is a valid date and the string is a spelling of its day, a dash, a spelling of its month, a dash and its four-digit year |
| `Dates.ParseDate` | app/routers/expense_router.py:104-111 | ISO is tried first and its result kept; only when ISO fails is the day-month-year form tried; None is the 400 |
| `Dates.IsoRoundTrip` | app/routers/expense_router.py:106 | every valid date written `YYYY-MM-DD` parses back to itself, also through the two-step parser |
| `Dates.IsoCanonical` | app/routers/expense_router.py:106 | a string the ISO parser accepts is exactly the `YYYY-MM-DD` spelling of the date it returns |
| `Dates.DmyRoundTrip` | app/routers/expense_router.py:108-109 | every valid date written `DD-MM-YYYY` parses back to itself, also through the two-step parser |
| `Dates.FormsAreDisjoint` | app/routers/expense_router.py:105-111 | no string is accepted by both forms, so trying ISO first never changes a day-month-year reading |
| `Dates.SeventhOfMarch` | app/routers/expense_router.py:104-111 | "2024-03-07" and "07-03-2024" both give 7 March 2024 |
| `Dates.OneDigitFields` | app/routers/expense_router.py:109 | strptime's fields also take one digit: "7-3-2024" gives 7 March 2024 |
| `Dates.NoThirtyFirstOfFebruary` | app/routers/expense_router.py:105-111 | for every four-digit year `y`, "31-02-`y`" is refused by both forms |
| `Dates.NoThirtiethOfFebruary` | app/routers/expense_router.py:105-111 | for every four-digit year `y`, "`y`-02-30" is refused by both forms |
| `Models.Principal.HasApprovedAttribute` | app/routers/expense_router.py:199 | `hasattr(current_user, "approved")` holds exactly for a User row and fails exactly for an Admin row |
| `Models.ColumnDefault` | app/models.py:32-56 | only `expense_type_flag` (0) and `status` ("Pending") have a default; the default fits every column except the NOT NULL company name, type and date, which must be supplied |
| `Models.Get` | app/routers/expense_router.py:314-316 | `getattr(row, column)`: the value read from a row whose NOT NULL columns are filled fits the column's type |
| `Models.Principal.Username` | app/routers/expense_router.py:117 | `getattr(current_user, "username", None)`: the username of the User row or of the Admin row, whichever the caller is |
| `Models.Set` | app/crud.py:110-111 | `setattr(row, c, v)` with a value of the column's type makes column `c` hold `v` and leaves every other column, the id and `created_at` as they were |
| `Models.FromPayload` | app/crud.py:85 | `Model(**payload)` holds each supplied column as given and every other column at its default (`expense_type_flag` 0, `status` "Pending", NULL elsewhere) |
| `Models.Patched` | app/crud.py:110-111 | after applying a typed change set, the changed columns hold the new values, all other columns, the id and `created_at` are unchanged, and the NOT NULL columns stay filled |
| `Crud.ModelForCompany` | app/crud.py:67-74 | a table is returned only for an exact registered company name; None otherwise |
| `Crud.ModelForCompanyExact` | app/crud.py:67-74 | a name selects company `c` exactly when it is `c`'s registered name, so each name selects its own table and no other |
| `Crud.ModelForCompanyIsCaseSensitive` | app/crud.py:73-74 | a lower-cased or space-padded company name selects no table |
| `Crud.UserByEmail` | app/crud.py:9-10 | returns a user with that email, and None exactly when no user has it |
| `Crud.AdminByEmail` | app/crud.py:39-40 | returns an admin with that email, and None exactly when no admin has it |
| `Crud.VendorByName` | app/crud.py:56-57 | exact-match lookup: a vendor with that name, and None exactly when no vendor has it |
| `Crud.NameLeq` | app/crud.py:53-54 | `ORDER BY name` compares code point by code point; a prefix of a name sorts before it |
| `Crud.NameLeqTotal` | app/crud.py:53-54 | any two names are ordered one way or the other |
| `Crud.SortByName` | app/crud.py:53-54 | the vendors ordered by name, as a permutation of the table |
| `Crud.WithDefaultStatus` | app/crud.py:83 | `setdefault`: the payload always has `status`, the supplied one when there was one and "Pending" otherwise; no other key changes |
| `Crud.StoredRow` | app/crud.py:82-85 | the row `create_expense` inserts carries the id and creation time it is given |
| `Crud.StoredRowColumns` | app/crud.py:82-85 | the inserted row holds the payload's columns as given, "Pending" as status when the payload has none, and defaults elsewhere |
| `Crud.StoredKeeps` | app/crud.py:83-85 | every column but `status` of the inserted row holds the payload's value when the payload has one, and its column default otherwise |
| `Crud.CreatedStatus` | app/crud.py:82-83 | a supplied status is kept; "Pending" is used only when none was supplied |
| `Crud.DefaultStatusMatchesColumnDefault` | app/crud.py:83 | with or without the `setdefault`, every column of the inserted row reads the same, because the `status` column default is "Pending" too |
| `Crud.ApplyChanges` | app/crud.py:110-111 | the `setattr` loop over a change set yields exactly `Patched` |
| `Crud.Window` | app/crud.py:95 | `.offset(skip).limit(limit)`: `min(limit, length - skip)` rows (none past the end), the `i`-th being the `(skip + i)`-th of the input |
| `Crud.NewestPage` | app/crud.py:95 | the page holds `min(limit, rows - skip)` rows (none when `skip` passes the end), and its `i`-th row is the `(skip + i)`-th newest of the table |
| `Crud.NewestFirst` | app/crud.py:95 | a page of a table kept in insertion order has strictly decreasing `created_at` |
| `Crud.Store.CreateUser` | app/crud.py:12-17 | appends one unapproved user with role "user" and changes no other table |
| `Crud.Store.CreateAdmin` | app/crud.py:42-47 | appends one admin and changes no other table |
| `Crud.Store.GetAllUsers` | app/crud.py:19-20 | every user, newest first |
| `Crud.Store.ApproveUser` | app/crud.py:22-28 | sets only `approved` on the user with that id and returns true; for an unknown id returns false and changes nothing |
| `Crud.Store.DeleteUser` | app/crud.py:30-36 | removes exactly the user with that id and returns true; for an unknown id returns false and changes nothing |
| `Crud.Store.GetAllVendors` | app/crud.py:53-54 | every vendor, ordered by name |
| `Crud.Store.CreateVendor` | app/crud.py:59-64 | appends one vendor with that name and changes no other table |
| `Crud.Store.CreateExpense` | app/crud.py:77-89 | an unknown company writes nothing; otherwise one row, with the status default, is appended to that company's table only |
| `Crud.Store.ListExpensesForCompany` | app/crud.py:91-95 | empty for an unknown company; otherwise the table newest first, `skip` rows dropped, at most `limit` kept |
| `Crud.OnlyRowWithId` | app/crud.py:97-101 | in a table kept in insertion order, ids are unique, so a row with a given id is the only one |
| `Crud.Store.GetExpense` | app/crud.py:97-101 | None exactly for an unknown company or an id no row of its table has; otherwise a row of that company's table with that id, and in a valid store the only such row |
| `Crud.Store.UpdateExpense` | app/crud.py:103-114 | None and no change for an unknown company or id; otherwise exactly the change set's columns change, on the one matching row, and all other rows and tables stay |
| `Crud.Store.DeleteExpense` | app/crud.py:116-125 | false and no change for an unknown company or id; otherwise exactly that row is removed and the result is true |
| `Auth.Claim` | app/deps.py:37 | `payload.get(key)`: the claim's value when the token carries that key, None exactly when it does not |
| `Auth.AccessClaims` | app/routers/auth_router.py:29 | the token data carries exactly `sub`, `role` and `email`, with the email as both `sub` and `email` |
| `Deps.GetCurrentUser` | app/deps.py:26-64 | a decode failure or a missing `sub` gives 401; the User table is searched before the Admin table; 404 exactly when the email is in neither; otherwise success, the User row when one has the email; the result's email is the `sub` claim |
| `Deps.GetCurrentUserIgnoresRole` | app/deps.py:34-64 | two tokens with the same `sub` resolve alike whatever their `role` claims say |
| `Deps.UserTableWins` | app/deps.py:53-59 | an email present in both tables resolves to the User row, even on an admin token |
| `AuthRouter.Register` | app/routers/auth_router.py:11-18 | an email already in the User table gives 400 and creates nothing; otherwise one user is created with `approved = false` and role "user", and no client role is consulted |
| `AuthRouter.Login` | app/routers/auth_router.py:21-44 | an admin with the right password gets an admin token; otherwise an unknown user or a wrong password gives 400, an unapproved user 403, and an approved user a user token; the claims carry the email as `sub` and `email` |
| `AuthRouter.WrongAdminPasswordFallsThrough` | app/routers/auth_router.py:27-33 | an admin email with a wrong password is not rejected: login proceeds as if the Admin table were empty |
| `AuthRouter.UnapprovedUserRefused` | app/routers/auth_router.py:40-41 | an unapproved user with correct credentials gets 403 and no token, when no admin with that email accepts the password |
| `AuthRouter.PasswordBeforeApproval` | app/routers/auth_router.py:37-41 | a wrong password gives 400 whatever the user's approval flag says, when no admin with that email accepts the password |
| `AdminRouter.GetAdminFromToken` | app/routers/admin_router.py:16-40 | decode failure 403; a role other than "admin" 403 before any lookup; a missing or empty `sub` 401; an email not in the Admin table 404; an admin token with a non-empty `sub` naming a registered admin always succeeds, with an admin of that email |
| `AdminRouter.RoleCheckedFirst` | app/routers/admin_router.py:24-25 | a non-admin token is refused with 403 whatever the Admin table holds |
| `AdminRouter.UserTokenRefused` | app/routers/admin_router.py:24-25 | a user-role token is refused even when its email is an admin's |
| `AdminRouter.ListUsers` | app/routers/admin_router.py:47-51 | a refused token gives the resolver's error; an accepted one gives every user, newest first |
| `AdminRouter.ApproveUser` | app/routers/admin_router.py:58-66 | an unknown user id gives 404 and no change; otherwise only that user's `approved` is set |
| `AdminRouter.DeleteUser` | app/routers/admin_router.py:73-81 | an unknown user id gives 404 and no change; otherwise exactly that user is removed |
| `UserRouter.GetUserFromToken` | app/routers/user_router.py:12-24 | decode failure 403; a role other than "user" 403; 404 exactly when no user has the `email` claim; a user-role token whose `email` claim is a registered user's always succeeds, with a user of that email |
| `UserRouter.EmailClaimNotSubject` | app/routers/user_router.py:18-19 | the result depends on the `role` and `email` claims only, never on `sub` |
| `UserRouter.SubjectAloneNotFound` | app/routers/user_router.py:18-21 | a user-role token that names a registered user only in `sub` gives 404 |
| `ExpenseRouter.Extension` | app/routers/expense_router.py:40 | `os.path.splitext` suffix: empty, or a dot followed by no dot and no slash, taken from the end of the name |
| `ExpenseRouter.ExtensionSplits` | app/routers/expense_router.py:40 | the suffix is non-empty exactly when the name has a split point (the last dot, no `/` after it, and a character other than a dot earlier in its path component), and is then the name from that dot on |
| `ExpenseRouter.SaveUploadFile` | app/routers/expense_router.py:34-49 | a path under the folder exactly when a file with a non-empty name is given: folder, "/", stem, then the name's extension |
| `ExpenseRouter.WithClientStatus` | app/routers/expense_router.py:140-142 | `status` enters the payload exactly when the client sent one; no other key changes |
| `ExpenseRouter.BaseValue` | app/routers/expense_router.py:118-137 | each column's entry in the handler's dict literal fits its column: the NOT NULL company name, type, flag and date are never None |
| `ExpenseRouter.BasePayload` | app/routers/expense_router.py:118-137 | the dict literal has every column but `status`, each with its `BaseValue`, and is insertable |
| `ExpenseRouter.PlanCreate` | app/routers/expense_router.py:80-142 | 400 "Unknown company" exactly when dispatch fails, checked before the date; 400 for a date neither form parses; a known company with a parsable date always succeeds, with an insertable payload that has `status` only when one was supplied, and the written files are exactly the saved paths of the uploads with a name, in invoice, QR code, screenshot order |
| `ExpenseRouter.StoredColumn` | app/routers/expense_router.py:118-137 | every column but `status` of the stored row holds what the handler's dict literal gives it |
| `ExpenseRouter.StoredRowOf` | app/routers/expense_router.py:118-144 | the stored row holds the company name, the normalised type and flag, the parsed date, the caller's username, and the client's status or else "Pending" |
| `ExpenseRouter.StoredFlagsAgree` | app/routers/expense_router.py:85-102 | the stored row's two flags agree with their string columns |
| `ExpenseRouter.StoredFilesOf` | app/routers/expense_router.py:112-114 | the stored row holds the three saved upload paths, NULL for an upload not given |
| `ExpenseRouter.CreatedRow` | app/routers/expense_router.py:85-144 | the stored row has agreeing flags, the normalised type and its flag, the parsed date, the caller's username, the saved file paths, and the client's status or else "Pending" |
| `ExpenseRouter.CreateExpense` | app/routers/expense_router.py:54-145 | on any 400 no file is written and the store is unchanged; otherwise the files are written and one row is appended to the company's table |
| `ExpenseRouter.NewStatus` | app/routers/expense_router.py:256-259 | `allOk` true gives "Completed" and false gives "Pending"; only when `allOk` is absent is `status` used |
| `ExpenseRouter.IntendedChanges` | app/routers/expense_router.py:206-264 | the change set holds a column exactly when the update supplies it, never the company name, and `submitted_by` only for a non-empty username |
| `ExpenseRouter.EarlyChanges` | app/routers/expense_router.py:208-227 | `expense_type`, `gst_number` and `date` enter as supplied; a date neither form parses stops with 400 |
| `ExpenseRouter.Local` | app/routers/expense_router.py:229-230 | `locals().get` yields a value only for one of the seven copied fields |
| `ExpenseRouter.CopyChanges` | app/routers/expense_router.py:229-232 | the loop copies exactly the supplied fields among the seven named ones |
| `ExpenseRouter.PaymentChanges` | app/routers/expense_router.py:234-240 | a supplied `payment_type` sets name and flag together |
| `ExpenseRouter.FileChange` | app/routers/expense_router.py:243-246 | an upload is saved only when the part was sent; the change set gains its column exactly when the save gives a path, and is otherwise unchanged |
| `ExpenseRouter.UploadChanges` | app/routers/expense_router.py:242-254 | each upload with a name is saved and its path enters the change set |
| `ExpenseRouter.FinalChanges` | app/routers/expense_router.py:256-264 | after `allOk`/`status` and `submitted_by` the change set is exactly `IntendedChanges` |
| `ExpenseRouter.BuildChanges` | app/routers/expense_router.py:206-264 | a bad date gives 400 before any file is saved; otherwise the built dict is exactly `IntendedChanges` |
| `ExpenseRouter.AllOkOverridesStatus` | app/routers/expense_router.py:256-259 | with `allOk` supplied, status is "Completed"/"Pending" and the change set does not depend on `status` at all |
| `ExpenseRouter.AllOkSetsStatus` | app/routers/expense_router.py:256-257 | whatever the row held, an update with `allOk` leaves its status "Completed" or "Pending" as `allOk` says |
| `ExpenseRouter.NothingSuppliedChangesNothing` | app/routers/expense_router.py:206-264 | with no field supplied the change set holds only `submitted_by`, and only for a non-empty username |
| `ExpenseRouter.ChangesFollowSuppliedFields` | app/routers/expense_router.py:229-264 | the company name never changes; each copied field is in the change set exactly when supplied, with its value; `submitted_by` exactly for a non-empty username |
| `ExpenseRouter.ChangesPairFlags` | app/routers/expense_router.py:208-240 | each flag enters the change set exactly with its name, and in agreement with it |
| `ExpenseRouter.PatchKeepsFlagsAgree` | app/routers/expense_router.py:208-240 | applying an update's change set to a row whose flags agree keeps them in agreement |
| `ExpenseRouter.UpdateExpense` | app/routers/expense_router.py:171-269 | a caller with an `approved` attribute gets 403 before any lookup; a missing expense 404; a bad date 400; otherwise the one row is patched with `IntendedChanges`; every error leaves the store and the files untouched; 500 never occurs |
| `ExpenseRouter.DeleteExpense` | app/routers/expense_router.py:274-281 | 403 for a caller with an `approved` attribute, before any lookup; 404 for an unknown company or id; otherwise exactly that row is removed |
| `ExpenseRouter.GetExpenseDetail` | app/routers/expense_router.py:162-166 | 404 exactly when the lookup finds nothing; a known company and an id present in its table always succeed, and in a valid store the result is that row |
| `ExpenseRouter.GetExpenseFiles` | app/routers/expense_router.py:302-317 | 404 exactly when the lookup finds nothing; a known company and an id present in its table always succeed, and in a valid store the result is the three stored paths of that row |
| `ExpenseRouter.AddVendor` | app/routers/expense_router.py:286-291 | a name already taken (exact match) gives 400 and no change; otherwise one vendor with that name is appended |
| `ExpenseRouter.PurchaseCreated` | app/routers/expense_router.py:80-144 | a "Purchase" expense dated "2024-01-15" with no files and no status is stored with flag 0, status "Pending" and no invoice |
| `Sessions.AdminGrantResolves` | app/routers/auth_router.py:27-30 | an admin login with a non-empty email yields a token the admin resolver accepts for that admin |
| `Sessions.AdminTokenNamesItsAdmin` | app/routers/admin_router.py:16-40 | with unique admin emails, an admin token for a registered admin with a non-empty email resolves to exactly that admin |
| `Sessions.EmptyAdminEmailLocksOut` | app/routers/admin_router.py:28-30 | an admin with an empty email can log in but the admin resolver refuses the token with 401 |
| `Sessions.UserGrantResolves` | app/routers/auth_router.py:43-44 | a user token resolves to that user in `/me` and in the generic resolver, and is refused with 403 by the admin resolver |
| `Sessions.AdminGrantOnCurrentUser` | app/deps.py:53-59 | an admin token resolves in the generic resolver to the admin, or to the user sharing its email |
| `Sessions.SharedEmailAdminIsGated` | app/routers/expense_router.py:199-200 | an admin whose email is also a user's is seen as that user, so the `approved` gate refuses its expense updates and deletes |
| `Sessions.ApprovalUnlocksLogin` | app/routers/auth_router.py:37-44 | a user with the right password gets 403 before approval and a user token after it, when no admin with that email accepts the password |

## Left out

- JSON Web Token signing, verification and expiry, and Argon2 password hashing. They are foreign calls and depend on a clock. They appear only as the `decoded` and `verify` parameters. `Register` takes the hash as an input.
- Bearer-token extraction from the request, and a request with no token at all. The framework answers those before any resolver runs.
- The filesystem writes of `save_upload_file`, its clock and its random bytes. The generated stem is a parameter. The written paths are returned as a list, not written.
- Database engine, sessions, `commit` and `refresh`. The store is the in-memory `Store` object. Each request is one step on it, and concurrent requests are not modelled.
- Timestamps and auto-increment ids: both come from `Store.clock`, which strictly increases. The database can give two rows the same `created_at`, and then newest-first order among them is unspecified. The model does not cover that case.
- Database collation. Email, vendor-name and company-name equality are exact code-point equality, and vendor order is code-point order. A case-insensitive collation would compare differently.
- `Crud.Store.ListExpensesForCompany`: `skip` and `limit` are natural numbers. A negative offset or limit is a database error and is not modelled.
- Case folding. `str.lower()` is modelled on ASCII letters only. Non-ASCII characters that lower-case to ASCII letters (for example the Kelvin sign) are not covered.
- Date forms. Only the exact `YYYY-MM-DD` and `%d-%m-%Y` forms with ASCII digits are modelled. Not modelled: `fromisoformat`'s extra forms with a time part or the newer interpreters' forms, strptime's acceptance of non-ASCII Unicode digits, and its case-insensitive matching. Some digit-and-dash strings are affected: the handler accepts "2024-03-07-05" (from Python 3.7 on, `fromisoformat` reads "05" as the hour and the date is 7 March 2024) and "20240307" (from Python 3.11 on), and the model refuses both.
- Claims. Only string-valued claims are modelled. A non-string `sub`, `role` or `email` claim is not.
- `verify_password` raising on a malformed stored hash. `verify` is total here.
- The bootstrap scripts, the application wiring, and the request/response schemas. `EmailStr` validation is not modelled.
- `list_company_expenses`, `list_vendors` and `me`: each handler returns its store call or resolver result unchanged. They are modelled by `Crud.Store.ListExpensesForCompany`, `Crud.Store.GetAllVendors` and `UserRouter.GetUserFromToken`.
