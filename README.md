# finance-system bookkeeping rules in Dafny

This project models the bookkeeping core of a school-finance backend. The backend keeps its
tables in immudb and serves them over FastAPI and Streamlit. The model covers these parts:

- **Bills.** A bill total is split evenly over students by integer division, and payments are
  recorded on one assignment (`app/routers/bills.py`).
- **Dashboard statistics.** This is the fold over transaction rows with a pending count,
  per-type sums and per-category dicts (`app/routers/stats.py`). Two earlier variants are also
  modelled: the four-total loop of `fast_api_thing.py` and the dataframe sums of
  `finance_system.py`.
- **Payroll.** Salary fallback, net pay, the "staff see only their own payroll" rule and the
  replace-all update of deductions (`app/routers/staff.py`).
- **Password records.** The `scrypt$<salt hex>$<key hex>` record and its verification
  (`app/utils.py`).
- **Financial allocations.** Create, update, delete and a listing with its total
  (`app/routers/allocations.py`).
- **Users.** Seeding an empty users table (`app/database.py`) and the wholesale reset script
  (`reset_users.py`).
- **Transactions.** The creation rule (Pending for disbursements, Verified otherwise, amounts
  in cents), newest-first listings and verification of an id (`app/routers/transactions.py`,
  `fast_api_thing.py`, `finance_system.py`).
- **The Streamlit app.** Login, the entry form's checks, the audit filter and the role menu
  (`finance_system.py`).

**Modelling choices**
- Money is an integer number of cents. The only place reals appear is module `Money`, which
  models `int(x * 100)` (truncation toward zero) and `cents / 100.0` on exact reals.
- Each table is a `seq` of rows in id order with an auto-increment counter, or a `map` keyed
  by id where rows are looked up by id.
- A Python dict whose insertion order is visible (the category totals) is an association list.
- Handlers that write tables are methods of classes whose fields are those tables. Their
  contracts state the whole new state.
- `ensure_role`, `ensure_admin` and `get_user_role` are imported but not defined in the
  repository. They are modelled over an abstract lookup `Access.RoleLookup` from user name to
  an optional role.
- The scrypt key derivation is an abstract function `PasswordHash.Kdf`. The random salts are
  inputs.
- Several handlers raise their own 403 or 404 inside `try: ... except Exception`, which turns
  it into a 500. Each such handler has two members: the intended one, and one named
  `...AsWritten` that answers 500 as the code does (see "## Findings").

Modules, one per file:
- `Common`: Option, Result, HTTP errors, `os.getenv`.
- `Text`: `strip` on Python's whitespace, `lower` on ASCII letters.
- `SqlEscape`: quote doubling.
- `Money`: cents and units.
- `Access`: role checks.
- `PasswordHash`.
- `Bills`.
- `DashboardStats`.
- `Payroll`.
- `Allocations`.
- `Users`.
- `Ledger`: transactions.
- `DemoApi`: `fast_api_thing.py`.
- `FinanceApp`: `finance_system.py`.

## Model

| member | source | states |
|---|---|---|
| Common.Caught | app/routers/transactions.py:67-68 | `except Exception: raise HTTPException(500)` passes a success through unchanged and turns every error, a 403 or 404 raised inside the `try` included, into a 500 |
| Common.Getenv | reset_users.py:79 | `os.getenv(key, default)` is the environment value when the variable is set and the default otherwise |
| Text.StripEmptyIffBlank | app/routers/staff.py:111-113 | `s.strip()` is empty exactly when every character of `s` is whitespace |
| Text.StripShape | app/routers/staff.py:111 | what `strip` leaves starts and ends with a non-whitespace character, or is empty |
| Text.TrimLeftShape | app/routers/staff.py:111 | stripping the left end removes a whitespace-only prefix and leaves a suffix of the input |
| Text.TrimRightShape | app/routers/staff.py:111 | stripping the right end removes a whitespace-only suffix and leaves a prefix of the input |
| SqlEscape.Escape | app/routers/staff.py:13-14 | doubling quotes adds one character per quote, doubles the quote count, keeps every other character in order, and leaves only quote pairs |
| SqlEscape.EscapeOptional | reset_users.py:28-29 | `esc`/`_esc` of a missing or empty value is "", and of a string is its quote-doubled form, which the SQL engine reads back as the string |
| SqlEscape.UnescapeEscape | app/routers/staff.py:13-14 | undoubling the quote pairs gives back the original string |
| SqlEscape.EscapeInjective | app/routers/staff.py:13-14 | two different strings never escape to the same literal |
| Money.ToCents | app/routers/transactions.py:34 | `int(amount * 100)` truncates toward zero: within one cent below the exact value for non-negative amounts, and above it for negative ones |
| Money.CentsRoundTrip | app/routers/transactions.py:23 | converting stored cents to units and back gives the same cents |
| Money.UnitsRoundTrip | app/routers/transactions.py:34 | storing a non-negative amount loses less than one cent |
| Access.EnsureRole | app/routers/bills.py:44 | the role check passes exactly when the user has a role in the allowed list; otherwise it is Forbidden |
| Access.EnsureAdmin | app/routers/allocations.py:68 | the admin check passes exactly when the user's role is admin; otherwise it is Forbidden |
| Access.RefusalInsideTry | app/routers/allocations.py:67-68 | a refusal raises 403, but raised inside a handler's `try: ... except Exception` it reaches the client as 500 |
| PasswordHash.HashPasswordParts | app/utils.py:8-24 | a produced record splits on '$' into exactly "scrypt", the hex of the 16-byte salt (32 digits) and the hex of the 32-byte key (64 digits) |
| PasswordHash.Hex | app/utils.py:21-22 | `hexlify` writes two lower-case hex digits per byte |
| PasswordHash.UnhexHex | app/utils.py:39-40 | `unhexlify` inverts `hexlify` for every byte string |
| PasswordHash.NibbleOfDigit | app/utils.py:39-40 | reading a written hex digit gives back its value |
| PasswordHash.PairValueOfByteHex | app/utils.py:39-40 | reading the two digits written for a byte gives back the byte |
| PasswordHash.Unhex | app/utils.py:39-40 | a successful `unhexlify` consumed two characters per byte |
| PasswordHash.SplitJoin | app/utils.py:24 | splitting on '$' recovers the joined fields when none contains '$' |
| PasswordHash.SplitPrefix | app/utils.py:33 | a '$'-free prefix extends the first piece of the split |
| PasswordHash.JoinSplit | app/utils.py:33 | joining the pieces of a split gives back the string |
| PasswordHash.Split | app/utils.py:33 | `split("$")` yields at least one piece and no piece contains '$' |
| PasswordHash.Parse | app/utils.py:33-40 | a record parses only when it has exactly three '$'-parts with "scrypt" first |
| PasswordHash.ParseFormat | app/utils.py:24 | parsing a formatted record gives back its salt and key |
| PasswordHash.VerifyPassword | app/utils.py:27-51 | verification is true exactly when the record parses and the key re-derived from the stored salt equals the stored key; it never raises |
| PasswordHash.MalformedFails | app/utils.py:33-35 | a record without exactly three '$'-parts, or with another scheme, never verifies |
| PasswordHash.VerifyOwnHash | app/utils.py:8-24 | a freshly hashed password verifies against its own record |
| PasswordHash.VerifyOtherPassword | app/utils.py:43-47 | another password verifies exactly when the key derivation cannot tell it from the original under that salt |
| Bills.Share | app/routers/bills.py:47-48 | each student's share is the floor of total over student count, so the shares never exceed the total and drop less than one cent per student; no students gives 0 |
| Bills.Views | app/routers/bills.py:66-84 | one assignment per listed student, in list order, with consecutive ids, each owing the share, paid 0, Pending |
| Bills.NewRows | app/routers/bills.py:67-72 | the inserted assignment rows take ids from the counter's value onwards |
| Bills.TotalOwedUniform | app/routers/bills.py:67-84 | assignments that all owe the share owe count times share in total |
| Bills.SplitDropsLessThanOneCentPerStudent | app/routers/bills.py:47-48 | the created assignments owe at most the bill total and fall short of it by less than the student count; no students, no assignments |
| Bills.ApplyPayment | app/routers/bills.py:183-189 | paid grows by the payment without a cap; status is Paid exactly when paid covers the amount owed, else Partial; bill, student and owed amount are kept |
| Bills.BillBook.CreateBill | app/routers/bills.py:39-94 | as intended: a creator whose role is not payables or admin is Forbidden and nothing is written; otherwise one bill row and one Pending assignment per student are added and reported, and nothing else changes |
| Bills.BillBook.InsertAssignments | app/routers/bills.py:66-84 | the loop adds exactly the per-student assignments under fresh ids and returns their views in list order |
| Bills.BillBook.UpdatePayment | app/routers/bills.py:173-197 | as intended: an unknown assignment is NotFound and nothing is written; otherwise only that assignment changes, to the ApplyPayment result |
| Bills.BillBook.CreateBillAsWritten | app/routers/bills.py:39-97 | as written: a refused creator gets a 500, not a 403, and nothing is written; an admitted creator gets the bill and its assignments as the intended handler adds them |
| Bills.BillBook.UpdatePaymentAsWritten | app/routers/bills.py:173-200 | as written: an unknown assignment gets a 500, not a 404, and nothing is written; a known one is updated as intended |
| DashboardStats.BumpSpec | app/routers/stats.py:27-28 | `bump` adds the amount to one key, starting from 0; every other key keeps its value; the dict total grows by the amount; it stays a dict |
| DashboardStats.GetAbsent | app/routers/stats.py:28 | `get(key, 0)` on a missing key is 0 |
| DashboardStats.CategoryKey | app/routers/stats.py:32 | `row[1] or "Uncategorized"` is never empty |
| DashboardStats.StepCounts | app/routers/stats.py:37-50 | one row adds 1 to the pending count if Pending, and otherwise adds its amount to exactly the totals its type and category select |
| DashboardStats.StepTallies | app/routers/stats.py:41-51 | one settled row adds its amount to its category in the dict of its type and leaves the other dict alone; the dicts stay dicts |
| DashboardStats.FoldIsDict | app/routers/stats.py:24-51 | after any rows both category dicts have distinct keys and the pending count is at most the row count |
| DashboardStats.FoldSnoc | app/routers/stats.py:30 | the state after one more row is one loop step from the state before it |
| DashboardStats.GetStats | app/routers/stats.py:9-71 | the loop computes the fold of the rows; a failed query or any NULL amount gives the all-zero fallback |
| DashboardStats.Visit | app/routers/stats.py:31-51 | the loop body for a row with an amount updates the five accumulators and two dicts exactly as one `Step` of the fold |
| DashboardStats.PendingCountMatches | app/routers/stats.py:37-39 | `pending_count` is the number of Pending rows |
| DashboardStats.ExpensesAreSettledDisbursements | app/routers/stats.py:41-43 | `total_expenses` is the sum of the non-pending Disbursement rows |
| DashboardStats.CategoryEntries | app/routers/stats.py:41-51 | each category's dict entry is the sum of the non-pending rows of that type and category |
| DashboardStats.UncategorizedFallback | app/routers/stats.py:32 | a settled Collection with a missing or empty category is counted under "Uncategorized" |
| DashboardStats.ExpensesMatchCategories | app/routers/stats.py:41-43 | `total_expenses` equals the sum of the values of `disbursements_by_category` |
| DashboardStats.NamedTotalsMatchCategories | app/routers/stats.py:44-51 | tuition, misc and org each equal their category's entry in `collections_by_category` |
| DashboardStats.OtherTypesIgnored | app/routers/stats.py:41-51 | settled rows that are neither Collection nor Disbursement change nothing |
| DashboardStats.PendingRowsOnlyCount | app/routers/stats.py:37-39 | Pending rows only raise the pending count and touch no total or dict |
| DashboardStats.SuccessBodyValidates | app/routers/stats.py:53-61 | the success dict has every field that `DashboardStats` in app/schemas.py requires, and carries the pending count and both category dicts |
| DashboardStats.FallbackAsWrittenRejected | app/routers/stats.py:65-71 | the fallback body lacks the two category dicts, so the response model rejects it |
| DashboardStats.FallbackValidates | app/routers/stats.py:62-71 | the corrected fallback (the success dict of the all-zero statistics) has every required field, agrees with the as-written fallback on its five zero fields and adds two empty dicts |
| Payroll.ReadRule | app/routers/staff.py:34-43 | a payroll may be read by a caller whose role is unresolved, admin or payables, and by a staff member only for their own id after trim and lowercase; every other role is refused |
| Payroll.NetPay | app/routers/staff.py:72 | net pay is `max(0, salary - deductions)`: never negative, and equal to the difference whenever that is positive |
| Payroll.SalaryCents | app/routers/staff.py:46-60 | the salary is the staff profile's monthly salary (whole units, converted to cents) when it is positive; otherwise the legacy payroll row (in cents) when there is one; otherwise the profile's value, or 0 when there is none |
| Payroll.TypeLabel | app/routers/staff.py:111-113 | a stored deduction type is never empty |
| Payroll.TypeLabelOfBlank | app/routers/staff.py:111-113 | a blank or whitespace type is stored as "Deduction"; any other type is stored stripped |
| Payroll.SeparatorTypeIsDeduction | app/routers/staff.py:111-113 | a type made of an information separator is stored as "Deduction", and separators and ideographic spaces are stripped from the ends of any other type |
| Payroll.NewRows | app/routers/staff.py:110-117 | one row is inserted per payload item |
| Payroll.NewRowsSnoc | app/routers/staff.py:110-117 | inserting one more item appends one more row with the next id |
| Payroll.NewRowsIds | app/routers/staff.py:115-117 | the inserted rows take consecutive ids |
| Payroll.Without | app/routers/staff.py:107 | the delete keeps only rows of other staff members, each taken from the table |
| Payroll.ItemViews | app/routers/staff.py:110-117 | the views of the inserted rows correspond one to one to the payload items |
| Payroll.ViewsForAppend | app/routers/staff.py:64-70 | reading a staff member's deductions distributes over concatenated tables |
| Payroll.ViewsForWithout | app/routers/staff.py:107 | after the delete the staff member has no deductions and everyone else's are untouched |
| Payroll.ViewsForNewRows | app/routers/staff.py:110-117 | the inserted rows read back as exactly the payload items for that staff member and as nothing for anyone else |
| Payroll.ReplaceAll | app/routers/staff.py:105-117 | after an update the staff member's deductions are exactly the payload items in order, and every other staff member's are unchanged |
| Payroll.ItemViewsTotal | app/routers/staff.py:71 | the total of the read-back deductions is the total of the payload amounts |
| Payroll.NetAfterReplace | app/routers/staff.py:70-72 | after a replace, net pay is salary minus the payload's total, floored at 0 |
| Payroll.UpdatedParts | app/routers/staff.py:92-118 | `updated` names "salary_amount" iff a salary was given and "deductions" iff deductions were given, salary first |
| Payroll.WithoutAscending | app/routers/staff.py:65 | the delete keeps the table in id order |
| Payroll.AppendAscending | app/routers/staff.py:115-117 | appending a row with a larger id keeps id order |
| Payroll.ViewsForAscending | app/routers/staff.py:63-66 | read from an id-ordered table, one staff member's deductions come in ascending id order, as `ORDER BY id` returns them |
| Payroll.PayrollBook.GetPayroll | app/routers/staff.py:27-78 | a staff caller may read only their own payroll (after trim and lowercase); roles outside staff, admin and payables are Forbidden and an unknown role is let through; otherwise salary, deductions in ascending id order and net pay are reported |
| Payroll.PayrollBook.UpdatePayroll | app/routers/staff.py:81-120 | callers who are not admin or payables are Forbidden and nothing changes; a given salary is written, in whole units; given deductions replace the staff member's set; the reply lists what was updated |
| Payroll.PayrollBook.ReplaceDeductions | app/routers/staff.py:105-117 | the table becomes the other staff members' rows followed by the new rows, and stays in id order |
| Payroll.PayrollBook.StoredType | app/routers/staff.py:111-113 | the per-item strip-or-"Deduction" step computes `TypeLabel` |
| Payroll.PayrollBook.Append | app/routers/staff.py:115-117 | one insert appends the row under the next id and keeps the table in id order |
| Payroll.PayrollBook.InsertRows | app/routers/staff.py:110-117 | the loop strips each type (blank becomes "Deduction") and appends exactly the new rows under fresh ids, keeping id order |
| Allocations.Lookup | app/routers/allocations.py:109-113 | the row with an id is found exactly when one exists |
| Allocations.Updated | app/routers/allocations.py:109-114 | `UPDATE ... WHERE id` changes only the row with that id, to the new name and amount |
| Allocations.Removed | app/routers/allocations.py:137 | a delete never lengthens the table |
| Allocations.RemovedMembers | app/routers/allocations.py:137 | `DELETE ... WHERE id` keeps exactly the rows with another id |
| Allocations.UpdatedTotal | app/routers/allocations.py:109-114 | an update moves the total by the change in that row's amount; an unknown id changes nothing |
| Allocations.RemovedAscending | app/routers/allocations.py:137 | a delete keeps the table in id order |
| Allocations.RemovedTotal | app/routers/allocations.py:137 | a delete takes the removed row's amount out of the total |
| Allocations.AllocationTable.GetAllocations | app/routers/allocations.py:22-52 | the listing is every row in ascending id order with the sum of their amounts; an unreadable table lists nothing with total 0 |
| Allocations.AllocationTable.Create | app/routers/allocations.py:63-88 | as intended: non-admins are Forbidden and nothing changes; otherwise one row is appended under an id above every other, the total grows by its amount and the new row is returned |
| Allocations.AllocationTable.Update | app/routers/allocations.py:99-120 | as intended: non-admins are Forbidden and nothing changes; otherwise the row with that id is updated and the request is echoed, even when no row has that id |
| Allocations.AllocationTable.Delete | app/routers/allocations.py:130-139 | as intended: non-admins are Forbidden and nothing changes; otherwise exactly the row with that id goes, and id order is kept |
| Allocations.AllocationTable.CreateAsWritten | app/routers/allocations.py:63-91 | as written: a non-admin gets a 500, not a 403, and nothing is inserted; an admin's row is appended under the next id |
| Allocations.AllocationTable.UpdateAsWritten | app/routers/allocations.py:99-123 | as written: a non-admin gets a 500, not a 403, and nothing is written; an admin's update is applied and echoed |
| Allocations.AllocationTable.DeleteAsWritten | app/routers/allocations.py:130-142 | as written: a non-admin gets a 500, not a 403, and nothing is deleted; an admin's delete removes exactly the rows with that id |
| Users.SeedRows | app/database.py:46-77 | five accounts are seeded |
| Users.SeedEmptyAccounts | app/database.py:39-84 | seeding an empty table yields exactly admin, staff, auditor, it and S-2024-001 with their roles, all active |
| Users.SeedPasswordsVerify | app/database.py:49-82 | each seeded account stores the hash of its configured password, not the password, and that hash verifies |
| Users.SeedIdempotent | app/database.py:30-39 | a readable, non-empty table is never seeded, so seeding again changes nothing |
| Users.ResetUsers | reset_users.py:78-111 | the reset's users are the seven role users, then staff, then student, in that order |
| Users.Cleared | reset_users.py:65-70 | every listed table that exists is emptied and every other table is untouched |
| Users.ClearedSnoc | reset_users.py:65-70 | clearing one more table empties it if it exists and changes nothing else |
| Users.InsertRows | reset_users.py:85-88 | an insert appends to its own table and leaves the others alone |
| Users.ResetProfiles | reset_users.py:85-116 | one profile insert follows each account: role table, then `staff`, then `students` |
| Users.ProfileTablesDistinct | reset_users.py:85-116 | the nine profile inserts go to nine different tables |
| Users.ApplyInsertsRows | reset_users.py:85-116 | with inserts aimed at distinct tables, each table gains exactly the one row aimed at it |
| Users.OneProfileEach | reset_users.py:81-116 | after a reset every account has exactly one profile row, with its user name, in the table its role names, provided that table was cleared or absent |
| Users.ResetAccounts | reset_users.py:78-111 | the reset leaves nine active accounts with the listed names and roles, each storing a hash that verifies against the environment value or the default |
| Users.UserDirectory.Seed | app/database.py:28-84 | users are inserted only when the count read is 0, an unreadable count counting as 0; profile tables are untouched |
| Users.UserDirectory.InsertUsers | app/database.py:79-84 | the loop appends the rows in order |
| Users.UserDirectory.Reset | reset_users.py:54-117 | profile tables are cleared, then users, then each account and its profile are inserted |
| Users.UserDirectory.ClearTables | reset_users.py:65-70 | the delete loop empties exactly the listed tables that exist |
| Users.UserDirectory.InsertAccounts | reset_users.py:78-116 | the insert loop appends each account to users and its profile to its table, in order |
| Ledger.InitialStatus | app/routers/transactions.py:35 | a new transaction is Pending exactly when it is a Disbursement, and Verified otherwise |
| Ledger.NewTxn | app/routers/transactions.py:33-41 | a created row stores the amount in cents with the initial status and drops the student id and proof reference |
| Ledger.Listing | app/routers/transactions.py:12-25 | the listing shows every row, newest id first |
| Ledger.Find | app/routers/transactions.py:52 | the row with an id is found exactly when one exists |
| Ledger.TransactionTable.Create | app/routers/transactions.py:30-43 | one row is appended under the next id and nothing else changes |
| Ledger.TransactionTable.List | app/routers/transactions.py:8-26 | the loop produces the listing, with ids strictly descending |
| Ledger.TransactionTable.Verify | app/routers/transactions.py:47-66 | an unknown id is NotFound; a known id reports that id with its timestamp and amount |
| Ledger.VerifyAsWritten | app/routers/transactions.py:50-68 | as written, the 404 raised inside the `try` is served as a 500 |
| Ledger.UnknownIdServedAs500 | app/routers/transactions.py:54-55 | for an unknown id the intended answer is 404, and the as-written handler answers 500 |
| DemoApi.CheckCredentials | fast_api_thing.py:128-129 | a login matches exactly when the user exists and the password is equal |
| DemoApi.Login | fast_api_thing.py:126-136 | login succeeds iff the user exists and the password is equal; both failures give the same reply |
| DemoApi.GetStats | fast_api_thing.py:184-217 | the loop computes the four totals; a failed query or a NULL amount is a 500 |
| DemoApi.TotalsAreFilteredSums | fast_api_thing.py:195-208 | expenses sums every Disbursement; tuition, misc and org sum only Collections of exactly those categories |
| DemoApi.StepAgrees | fast_api_thing.py:200-208 | on a non-pending row this loop's step agrees with the newer stats loop |
| DemoApi.AgreesWithDashboardStats | fast_api_thing.py:195-208 | without pending rows the four totals equal those of the newer stats endpoint |
| FinanceApp.LoginPage | finance_system.py:207-213 | login succeeds iff the user exists and the password matches, and the session records that user |
| FinanceApp.SummaryStats | finance_system.py:139-140 | an empty ledger gives all four totals 0 |
| FinanceApp.AsRows | finance_system.py:143-149 | one row per listed transaction |
| FinanceApp.SumWhereIsSumOf | finance_system.py:143-149 | each dataframe sum is the matching filtered sum over the rows |
| FinanceApp.SummaryAgreesWithDemoLoop | finance_system.py:137-156 | the dataframe totals equal the four-total loop of the API |
| FinanceApp.SubmitEntry | finance_system.py:281-294 | an amount of 0 or less is rejected first, then an empty description; nothing is recorded then; otherwise one transaction is recorded with the amount in cents |
| FinanceApp.Keep | finance_system.py:316 | `isin` keeps exactly the rows whose column value is selected |
| FinanceApp.KeepIsSubsequence | finance_system.py:316 | filtering keeps rows in their original order |
| FinanceApp.SubsequenceOfFront | finance_system.py:314-318 | a subsequence of a prefix is a subsequence of the whole |
| FinanceApp.SubsequenceDropLast | finance_system.py:314-318 | dropping the last element keeps a subsequence |
| FinanceApp.SubsequenceTrans | finance_system.py:314-318 | a subsequence of a subsequence is a subsequence |
| FinanceApp.SubsequenceRefl | finance_system.py:314 | an unfiltered frame is a subsequence of itself |
| FinanceApp.AuditViewRows | finance_system.py:314-318 | an empty selection does not filter; otherwise a row is kept exactly when its value is selected on every filtered column, and the result is a subsequence |
| FinanceApp.KeepRows | finance_system.py:316 | the filter loop computes `Keep` |
| FinanceApp.AuditFilter | finance_system.py:314-318 | rebinding `filtered_df` step by step computes the audit view |
| FinanceApp.NavigationOptions | finance_system.py:368-370 | "New Transaction" is in the menu exactly for staff and admin, at index 1 |
| FinanceApp.VerifyRecord | finance_system.py:158-179 | a missing id is reported invalid with "Transaction ID not found."; a found one is valid and carries the id, time, amount and description of a row with that id |

## Left out

- Floating point: amounts are integer cents throughout. Rounding artefacts of `x * 100` on binary floats and of `round()` in the payroll update are not modelled; `Money` works on exact reals.
- Payroll.PayrollBook.UpdatePayroll: takes the salary as whole units and deduction amounts as cents already rounded; `int(round(...))` is not modelled.
- The immudb client, connections and table creation, including `init_db`, `create_bills_tables.py` and `_ensure_new_user_tables`. Profile tables the reset script expects are taken to exist; a missing one reads as empty.
- `ROLE_TABLES` is not part of the shown `app/database.py`, so the role tables are a parameter of `Users.UserDirectory.Reset`.
- `ensure_role`, `ensure_admin` and `get_user_role` are not defined in the repository and are abstract (`Access.RoleLookup`). `Access.EnsureRole` refuses a user with no role.
- The scrypt key derivation and `os.urandom` are abstract: `PasswordHash.Kdf` and salt inputs.
- SQL strings are not modelled. Unescaped values interpolated into INSERTs (injection) are out of scope; only the escape functions are modelled.
- Failures of individual inserts or updates are not modelled. The exceptions modelled are the failed count query of seeding, the unreadable allocations table, NULL amounts in statistics and a failed query in the API statistics.
- The bill readers `get_bills` and `get_student_bills` are not modelled. They only convert cents to units (`Money.ToUnits`).
- Bills.BillBook.CreateBill: its bill id and assignment ids are the table counters. Re-reading "the newest row" assumes no concurrent writer.
- Bills.BillBook.UpdatePayment and Allocations: the returned amounts are in cents; the `/ 100.0` in the reply is `Money.ToUnits`.
- Concurrency: the read-then-write races of `update_payment` and of user creation are out of scope.
- Unicode: `lower` is modelled on ASCII letters only; non-ASCII letters are left as they are. `strip` removes exactly the characters for which Python's `str.isspace()` holds.
- Streamlit and plotly rendering, sleeps and reruns, the file-upload router, `app/app.py` and `app/core.py` are not modelled. `app/routers/auth.py` imports a `USERS` that `app/core.py` does not define, so it is not modelled either.

## Findings

| source | as written | input that shows it | evidently intended | confidence | as-written member | corrected member |
|---|---|---|---|---|---|---|
| app/routers/transactions.py:54-55 | the 404 for an unknown id is raised inside `try: ... except Exception` and re-raised as a 500 | `GET /verify/999` on a table without id 999 | answer 404 "Transaction not found" | not executed | Ledger.VerifyAsWritten | Ledger.TransactionTable.Verify |
| app/routers/bills.py:95-97 | `ensure_role` raises its 403 inside `try: ... except Exception`, which re-raises it as a 500 | `POST /bills` by a student | answer 403 to a creator who is not payables or admin | not executed | Bills.BillBook.CreateBillAsWritten | Bills.BillBook.CreateBill |
| app/routers/bills.py:198-200 | the 404 for an unknown assignment is raised inside `try: ... except Exception` and re-raised as a 500 | `PUT /bills/assignments/999/update-payment` with no assignment 999 | answer 404 "Bill assignment not found" | not executed | Bills.BillBook.UpdatePaymentAsWritten | Bills.BillBook.UpdatePayment |
| app/routers/allocations.py:89-91 | `ensure_admin` raises its 403 inside `try: ... except Exception`, which re-raises it as a 500 | `POST /allocations` by a non-admin | answer 403 | not executed | Allocations.AllocationTable.CreateAsWritten | Allocations.AllocationTable.Create |
| app/routers/allocations.py:121-123 | the same for the update handler | `PUT /allocations/1` by a non-admin | answer 403 | not executed | Allocations.AllocationTable.UpdateAsWritten | Allocations.AllocationTable.Update |
| app/routers/allocations.py:140-142 | the same for the delete handler | `DELETE /allocations/1` by a non-admin | answer 403 | not executed | Allocations.AllocationTable.DeleteAsWritten | Allocations.AllocationTable.Delete |
| app/routers/stats.py:65-71 | the error fallback omits `collections_by_category` and `disbursements_by_category`, which the `DashboardStats` response model requires | `GET /stats` when the query fails | a zero body with empty category dicts that passes response validation | not executed | DashboardStats.FallbackAsWrittenRejected | DashboardStats.FallbackValidates |
