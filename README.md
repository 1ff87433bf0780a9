# Rice-mill B2B backend: access policy, entity store and farmer ledger

This project models the backend of a rice-mill business-to-business application.
Companies (rice mills) register users and farmers. Agents record the seed bags a
farmer receives and the harvest the farmer sells back. The mill then issues receipts
that net the farmer's sales against the cost of the seed.

The model covers:

- **Models and Crud.** The six tables, with their UNIQUE constraints and column
  defaults, kept by a `Store` class whose methods are the create, partial-update and
  delete operations.
- **Ledger.** The amounts stored with each seed distribution, harvest entry and
  receipt.
- **Auth.** Login, access tokens, the current-user dependency and the three role gates.
- **Api.** The request handlers, with their checks in the order the handlers make them.

Each table is a sequence of rows in primary-key order, and every query without ORDER
BY is taken to return its rows in that order (see "## Left out"). A new row gets the
largest key plus one, or 1 in an empty table.

The database enforces the UNIQUE constraints. A write that violates one is refused,
raises an exception the handler does not catch, and ends as an internal error (HTTP
500) with nothing changed. SQLite does not enforce FOREIGN KEY constraints unless told
to, and the repository never tells it to, so an insert may name a company or farmer
that does not exist.

Deletes are refused in another way. None of the one-to-many relationships cascades
deletes, so before deleting a company the ORM sets `company_id` to NULL on its users
and farmers, and before deleting a farmer it sets `farmer_id` to NULL on its seed
distributions, harvest entries and receipts. Those columns are NOT NULL, so a company
or farmer that any row still names cannot be deleted: the commit raises
IntegrityError and nothing changes.

Money and weights are `real`, which abstracts the source's floats; rounding is not
modelled. The clock is a parameter, in whole seconds. Passwords are hashed symbolically: a hash
verifies exactly the password it was made from.

Three behaviours of the code are easy to miss. The model follows the code in each
case, and a lemma states the consequence:

- **Receipts cover at most 100 entries of each kind.**
  - `calculate_and_create_receipt` reads the farmer's seed distributions and harvest
    entries through the listing functions, and those have a default limit of 100.
  - While a farmer has at most 100 of each, the receipt is the lifetime total
    (`Ledger.ReceiptIsLifetimeWhileUnderLimit`).
  - After that, new entries no longer change it (`Ledger.NewSeedIgnoredAtLimit`,
    `Ledger.NewHarvestIgnoredAtLimit`).
- **Mobile numbers are unique per company in the handler but globally in the table.**
  - `create_farmer` rejects a mobile number only when a farmer of the same company
    holds it.
  - The column itself is UNIQUE across all companies.
  - A number used in another company passes the handler's check, and the insert then
    fails with an internal error
    (`Api.MobileReuseAcrossCompaniesPassesCheckButNotInsert`).
- **Login does not check `disabled`.** A disabled user receives a token. Every gated
  request made with it ends as Inactive (`Api.DisabledUserLogsInButIsInactive`).

## Model

| member | source | states |
|---|---|---|
| Tables.NextRowId | backend/models.py:13 | a new primary key is positive and above every existing key |
| Tables.FindById | backend/crud.py:9-10 | a lookup by primary key finds a row exactly when one has that key, and returns a row of the table with that key |
| Tables.FirstWithKey | backend/crud.py:12-13 | `.filter(column == k).first()` is None exactly when no row holds `k`, and otherwise a row of the table holding `k` |
| Tables.WithKey | backend/crud.py:98-99 | a filter keeps exactly the rows whose column equals the key, and no more rows than the table has |
| Tables.WithKeyTakesRowsOnce | backend/crud.py:98-99 | a filter takes each row of the table at most once |
| Tables.WithKeyKeepsIdsAscending | backend/crud.py:98-99 | a filter keeps rows in table order: over ascending keys its result has ascending keys |
| Tables.Page | backend/crud.py:15-16 | `.offset(skip).limit(limit)` is, case by case (`IsPageOf`), the slice `[skip, skip+limit)` cut at the end of the table, empty past the end, with a negative offset read as 0 and a negative limit as no limit, as SQLite reads them |
| Tables.WithKeyAppend | backend/crud.py:136-139 | filtering the table with rows appended is filtering the old rows then the new ones |
| Tables.SumOfAppend | backend/crud.py:191-192 | the receipt sums add up over appended rows |
| Tables.PagesTile | backend/crud.py:15-16 | two adjacent pages make up the page spanning both |
| Tables.FirstPageOfLongPrefix | backend/crud.py:188-189 | rows appended after a first page that is already full do not enter it |
| Tables.FirstPageOfShortTable | backend/crud.py:188-189 | a first page whose limit covers the whole table is the whole table |
| Tables.UniqueKeyHolder | backend/models.py:42 | in a UNIQUE column two rows with the same key are the same row |
| Tables.AppendKeepsIdsAscending | backend/models.py:13 | inserting under the next key keeps keys ascending |
| Tables.AppendKeepsUnique | backend/models.py:14 | inserting a row whose key is free keeps a UNIQUE column unique |
| Tables.AppendKeepsUniqueWhenPresent | backend/models.py:43 | inserting a row whose nullable key is NULL or free keeps the column unique |
| Tables.ReplaceKeepsIdsAscending | backend/crud.py:29-33 | updating a row's columns keeps keys ascending |
| Tables.ReplaceKeepsUnique | backend/crud.py:29-33 | updating a row to a key no other row holds keeps a UNIQUE column unique |
| Tables.ReplaceKeepsUniqueWhenPresent | backend/crud.py:117-122 | updating a row to a NULL key or one no other row holds keeps a nullable UNIQUE column unique |
| Tables.RemoveAtKeepsIdsAscending | backend/crud.py:36-41 | deleting a row keeps keys ascending |
| Tables.RemoveAtKeepsUnique | backend/crud.py:84-89 | deleting a row keeps a UNIQUE column unique |
| Tables.RemoveAtKeepsUniqueWhenPresent | backend/crud.py:125-130 | deleting a row keeps a nullable UNIQUE column unique |
| Passwords.HashVerifiesOnlyItsPassword | backend/auth.py:22-28 | a hash verifies the password it was made from and no other |
| Queries.GetCompany | backend/crud.py:9-10 | a company with that id, or None exactly when no company has it |
| Queries.GetCompanyByName | backend/crud.py:12-13 | a company with that name, or None exactly when no company has it |
| Queries.GetCompanies | backend/crud.py:15-16 | the slice `[skip, skip+limit)` of the companies, cut at the end of the table; empty past the end; negative bounds as SQLite reads them |
| Queries.GetUser | backend/crud.py:44-45 | a user with that id, or None exactly when no user has it |
| Queries.GetUserByUsername | backend/crud.py:47-48 | a user with that username, or None exactly when no user has it |
| Queries.GetUserByEmail | backend/crud.py:50-51 | a user with that email, or None exactly when no user has it |
| Queries.GetUsers | backend/crud.py:53-54 | the slice `[skip, skip+limit)` of the users, cut at the end of the table; empty past the end; negative bounds as SQLite reads them |
| Queries.GetFarmer | backend/crud.py:92-93 | a farmer with that id, or None exactly when no farmer has it |
| Queries.GetFarmers | backend/crud.py:95-96 | the slice `[skip, skip+limit)` of the farmers, cut at the end of the table; empty past the end; negative bounds as SQLite reads them |
| Queries.GetFarmersByCompany | backend/crud.py:98-99 | the slice `[skip, skip+limit)` of that company's farmers in table order, cut at the end, empty past it, negative bounds as SQLite reads them; only farmers of that company, at most `limit` |
| Queries.GetFarmerByMobileNumber | backend/crud.py:101-105 | a match has both the mobile number and the company; None exactly when no farmer has both |
| Queries.GetSeedDistribution | backend/crud.py:133-134 | a seed distribution with that id, or None exactly when none has it |
| Queries.GetSeedDistributionsByFarmer | backend/crud.py:136-139 | the slice `[skip, skip+limit)` of that farmer's seed distributions in table order, cut at the end, empty past it, negative bounds as SQLite reads them; only that farmer's, at most `limit` |
| Queries.GetHarvestEntry | backend/crud.py:153-154 | a harvest entry with that id, or None exactly when none has it |
| Queries.GetHarvestEntriesByFarmer | backend/crud.py:156-159 | the slice `[skip, skip+limit)` of that farmer's harvest entries in table order, cut at the end, empty past it, negative bounds as SQLite reads them; only that farmer's, at most `limit` |
| Queries.GetReceipt | backend/crud.py:175-176 | a receipt with that id, or None exactly when none has it |
| Queries.GetReceiptsByFarmer | backend/crud.py:178-181 | the slice `[skip, skip+limit)` of that farmer's receipts in table order, cut at the end, empty past it, negative bounds as SQLite reads them; only that farmer's, at most `limit` |
| Ledger.NewSeedDistribution | backend/crud.py:141-146 | the stored total is bags times rate per bag; the other fields are copied |
| Ledger.NewHarvestEntry | backend/crud.py:161-168 | the weight in quintals is bags times kilograms per bag over 100; the total is that weight times the rate per quintal; the other fields are copied |
| Ledger.ReceiptFor | backend/crud.py:188-202 | debit and credit are the sums over the farmer's first 100 seed and harvest rows; balance is credit minus debit |
| Ledger.ReceiptIsLifetimeWhileUnderLimit | backend/crud.py:188-192 | with at most 100 rows of each kind the receipt sums all of the farmer's rows |
| Ledger.NewSeedCountsBelowLimit | backend/crud.py:188-194 | below the limit a new seed distribution raises the debit and lowers the balance by its total |
| Ledger.NewSeedIgnoredAtLimit | backend/crud.py:136-139 | once the farmer has 100 seed distributions, another one leaves the receipt unchanged |
| Ledger.NewHarvestCountsBelowLimit | backend/crud.py:189-194 | below the limit a new harvest entry raises the credit and the balance by its total |
| Ledger.NewHarvestIgnoredAtLimit | backend/crud.py:156-159 | once the farmer has 100 harvest entries, another one leaves the receipt unchanged |
| Ledger.OtherFarmersRowsIgnored | backend/crud.py:188-189 | rows of other farmers never change a farmer's receipt |
| Ledger.WorkedExample | backend/crud.py:142-194 | 10 bags at 50 and 10 bags of 60 kg at 2000 per quintal give 500, 6 quintals, 12000 and a balance of 11500 |
| Updates.ApplyUpdate | backend/crud.py:29-30 | the `setattr` loop yields the record with each supplied field set in turn |
| Updates.PatchedSetsOnlySupplied | backend/crud.py:28-30 | after a partial update every supplied field reads back its value and every other column is unchanged |
| Crud.NewUser | backend/crud.py:56-65 | the stored hash verifies exactly the given password; disabled is false; the role is the given one or "agent"; the other fields are copied |
| Crud.CompanyFieldLaws | backend/crud.py:29-30 | setting a company column reads back and leaves the other columns alone |
| Crud.UserFieldLaws | backend/crud.py:77-78 | setting a user column reads back and leaves the other columns alone |
| Crud.FarmerFieldLaws | backend/crud.py:118-119 | setting a farmer column reads back and leaves the other columns alone |
| Crud.CompanyUpdateChangesOnlySupplied | backend/crud.py:25-34 | `update_company` changes exactly the supplied columns |
| Crud.FarmerUpdateChangesOnlySupplied | backend/crud.py:114-123 | `update_farmer` changes exactly the supplied columns |
| Crud.UserUpdateChangesOnlySupplied | backend/crud.py:71-82 | `update_user` reads back every supplied column and leaves every other column as it was |
| Crud.UserUpdateStoresPasswordHash | backend/crud.py:75-76 | a supplied non-empty password is stored only as a hash that verifies exactly it; otherwise the old hash stays |
| Crud.Store.constructor | backend/main.py:14 | the store starts with six empty tables that satisfy every constraint |
| Crud.Store.CreateCompany | backend/crud.py:18-23 | a free name appends the company under the next key; a taken name is an integrity error with nothing changed |
| Crud.Store.UpdateCompany | backend/crud.py:25-34 | an unknown id changes nothing; otherwise the row gets the patched columns unless the new name is taken |
| Crud.Store.DeleteCompany | backend/crud.py:36-41 | an unknown id is NoSuchRow; a company some user or farmer names is an integrity error with nothing changed; otherwise exactly that row is removed and returned, and no row names the company |
| Crud.Store.CreateUser | backend/crud.py:56-69 | a free username and email append the new user under the next key; otherwise an integrity error with nothing changed |
| Crud.Store.UpdateUser | backend/crud.py:71-82 | an unknown id changes nothing; otherwise the row gets the patched columns and hashed password unless username or email collide |
| Crud.Store.DeleteUser | backend/crud.py:84-89 | returns the row by that id and removes exactly it, since no row names a user; an unknown id changes nothing |
| Crud.Store.CreateFarmer | backend/crud.py:107-112 | a mobile number free in all companies and a free or absent Aadhaar number append the farmer; otherwise an integrity error with nothing changed |
| Crud.Store.UpdateFarmer | backend/crud.py:114-123 | an unknown id changes nothing; otherwise the row gets the patched columns unless mobile or Aadhaar collide |
| Crud.Store.DeleteFarmer | backend/crud.py:125-130 | an unknown id is NoSuchRow; a farmer some seed distribution, harvest entry or receipt names is an integrity error with nothing changed; otherwise exactly that row is removed and returned |
| Crud.Store.CreateSeedDistribution | backend/crud.py:141-150 | appends exactly the computed seed distribution under the next key |
| Crud.Store.CreateHarvestEntry | backend/crud.py:161-172 | appends exactly the computed harvest entry under the next key |
| Crud.Store.CalculateAndCreateReceipt | backend/crud.py:183-206 | an unknown farmer gives None and no receipt; otherwise exactly the computed receipt is appended |
| Crud.UserUpdateFieldsShape | backend/crud.py:74-76 | the fields `update_user` writes are the supplied ones, with distinct columns, followed by the new hash exactly when a non-empty password is supplied |
| Auth.AuthenticateUser | backend/auth.py:30-40 | a result is the user of that name whose hash verifies the password; with unique usernames, None exactly when no such user verifies |
| Auth.TokenLifetime | backend/auth.py:45-49 | a given non-zero delta is the lifetime; none or zero gives the configured minutes |
| Auth.CreateAccessToken | backend/auth.py:42-53 | the claims are the caller's plus `exp` at now plus the lifetime, signed with the configured key and algorithm |
| Auth.Decode | backend/auth.py:64 | claims come back exactly for tokens with the configured key and algorithm whose `exp` has not passed and whose `sub` is text |
| Auth.TokenSubject | backend/auth.py:64-68 | the subject is present exactly for decodable tokens with a `sub` claim, and is its text |
| Auth.CurrentUser | backend/auth.py:56-75 | a user results exactly when the token's subject names one, and it is a row of that name; every failure is Unauthenticated |
| Auth.CurrentActiveUser | backend/auth.py:78-82 | passes exactly the current users that are not disabled; a disabled one is Inactive |
| Auth.ParseRole | backend/models.py:31 | a stored role string names a role exactly when it is that role's name |
| Auth.RoleGate | backend/auth.py:86-111 | a gate passes an active user whose role it admits, forwards earlier failures, and otherwise is Forbidden |
| Auth.CurrentAdminUser | backend/auth.py:86-93 | admits exactly active users whose role is admin; other active users are Forbidden |
| Auth.CurrentCompanyOwnerUser | backend/auth.py:95-102 | admits exactly active admins and company owners |
| Auth.CurrentAgentUser | backend/auth.py:104-111 | admits exactly active users whose role is one of the three roles |
| Auth.RoleNameRoundTrip | backend/auth.py:88 | every role's stored name parses back to it |
| Auth.GatesAdmitExactly | backend/auth.py:88-106 | each gate's string test admits exactly its roles' names |
| Auth.GatesMonotone | backend/auth.py:86-111 | the admin gate admits a subset of the owner gate, which admits a subset of the agent gate |
| Auth.DisabledUserIsInactive | backend/auth.py:80-81 | no gate admits a disabled user; each returns Inactive |
| Auth.TokenNamesSubjectUntilExpiry | backend/auth.py:42-53 | a token names its subject up to its expiry second and nobody after it |
| Auth.ForgedTokenRejected | backend/auth.py:64-70 | a token signed with another key or algorithm authenticates nobody |
| Api.LoginForAccessToken | backend/main.py:22-40 | bad credentials are Unauthenticated; good ones get a token with subject the name and `exp` the configured minutes ahead |
| Api.LoginTokenResolvesUntilExpiry | backend/main.py:36-40 | the login token resolves to the user who logged in until it expires, and to nobody after |
| Api.DisabledUserLogsInButIsInactive | backend/main.py:29-40 | a disabled user gets a token, and every gate then answers Inactive |
| Api.ReadUsersMe | backend/main.py:43-48 | succeeds exactly when the token names a user who is not disabled, and returns that user's row; a disabled user is Inactive, every other failure Unauthenticated |
| Api.CreateCompanyCheck | backend/main.py:55-62 | only admins pass; a taken name is Conflict |
| Api.CreateCompany | backend/main.py:51-63 | a refused request changes nothing; an accepted one adds exactly the one company |
| Api.ReadCompanies | backend/main.py:65-76 | admins get the slice `[skip, skip+limit)` of the companies, cut at the end, empty past it, negative bounds as SQLite reads them; others get the admin gate's refusal |
| Api.CreateUserCheck | backend/main.py:83-97 | admin first; a taken username, then a taken email, are Conflict; then a missing company is NotFound |
| Api.CreateUser | backend/main.py:79-99 | a refused request changes nothing; an accepted one adds exactly the new user |
| Api.CreateFarmerCheck | backend/main.py:106-119 | a non-admin naming another company is Forbidden before any mobile check; then a number taken in that company is Conflict |
| Api.CreateFarmer | backend/main.py:102-121 | a refused request changes nothing; an accepted one adds the farmer, or is Internal with nothing changed when the table's UNIQUE columns refuse it |
| Api.CrossCompanyFarmerForbidden | backend/main.py:111-115 | a non-admin cannot register a farmer for another company |
| Api.MobileReuseAcrossCompaniesPassesCheckButNotInsert | backend/main.py:117-121 | a number held in another company passes the handler's check but the insert is refused |
| Api.ReadFarmers | backend/main.py:123-137 | admins get the page of all farmers; others get the slice `[skip, skip+limit)` of their own company's farmers in table order, empty past the end, negative bounds as SQLite reads them, and no other company's |
| Api.ReadFarmersGivesWholeCompany | backend/main.py:133-136 | a non-admin's long enough first page is exactly the company's farmer list |
| Api.FarmerAccess | backend/main.py:149-157 | a missing farmer is NotFound before any tenancy check; a non-admin acting on another company's farmer is Forbidden |
| Api.CreateSeedDistribution | backend/main.py:140-159 | a refused request changes nothing; an accepted one appends exactly the computed entry |
| Api.CreateHarvestEntry | backend/main.py:162-181 | a refused request changes nothing; an accepted one appends exactly the computed entry |
| Api.GenerateFarmerReceipt | backend/main.py:184-207 | a refused request changes nothing; an accepted one appends exactly the computed receipt |
| Crud.GenerateReceiptTwice | backend/crud.py:183-206 | two generations in a row append two rows under successive keys, both with the amounts `ReceiptFor` computes from the entries as they were, and change no other table |
| Api.GetFarmerReceipts | backend/main.py:209-230 | after the same checks, the slice `[skip, skip+limit)` of that farmer's receipts in table order, empty past the end, negative bounds as SQLite reads them, and no other farmer's |

## Left out

- The token library and bcrypt are not modelled. A token is its claims with the key and
  algorithm that signed it, and a hash is a symbol that verifies exactly its password.
  The base64 and JSON encodings, the signatures themselves, bcrypt's salt and its
  72-byte truncation are not captured.
- Auth.Decode: checks only `exp` and `sub`. The decoder's checks of `nbf`, `iat`, `aud`
  and the other registered claims are not modelled. The handlers' own tokens carry
  only `sub` and `exp`.
- Auth.Decode: does not accept an `exp` given as a numeric string or a float. The
  decoder converts such values with `int()`.
- Time is whole seconds. Sub-second parts of the issue time are dropped when the
  expiry is encoded, so the model uses the truncated second throughout.
- Float rounding: amounts are exact reals, which abstract the floats of the source.
- Integer width: integers are unbounded. SQLite's 64-bit INTEGER is not modelled, nor
  the driver's OverflowError for a larger value, which ends the request as an internal
  error with nothing written. Nor is SQLite's choice of a random free rowid once the
  largest key is 2^63 - 1.
- Result order: every query without ORDER BY is assumed to return rows in primary-key
  order. SQLite promises no order for such a query, and one that scans an index
  returns rows in index order. The listings' slices are stated in primary-key order.
- Request validation: bodies that do not match the request schemas (HTTP 422) are not
  modelled. The schemas module is not part of this model. Its field lists are taken
  from the table columns.
- Updates that set a NOT NULL column to null are not modelled, because the update
  fields carry values of the column's own type. Such an update would fail at commit.
- Crud.Store.UpdateUser: requires that the supplied fields contain no
  `hashed_password`. The update schema has no such field; the hash enters only from
  the password.
- Crud.Store.UpdateCompany, Crud.Store.UpdateUser, Crud.Store.UpdateFarmer: require
  the supplied fields to name distinct columns, as the keys of the dictionary they
  come from do.
- Foreign keys are not enforced on insert or update, as in the SQLite engine the
  repository configures, so the model states no referential invariant. Deletes are
  refused only through the NOT NULL columns the ORM would clear.
- Concurrency: requests run one at a time. Two receipt generations racing on the
  same farmer are not modelled.
- Engine, session, commit/refresh, routing, dependency injection and HTTP headers are
  not modelled. The outcome kind stands for the HTTP status.
- The settings module is not part of this model. Its three values are the `Settings`
  parameter.
- The frontend is not part of this model.
