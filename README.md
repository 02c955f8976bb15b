# Expense-tracker backend: ledger, running balance and queries in Dafny

This project models the core of the Expence-Manager-Backend Python service. It covers:

- the account-balance fold that turns a user's transactions into a name-to-balance map;
- the running balance (`transaction_balance`) stored on every new transaction, in its two versions: main.py's two-cursor sum and the data-access layer's one-query sum;
- the composition of a filter payload into a MongoDB-style query, pagination with `skip`/`limit`, and main1.py's `limit` slice;
- the SQLite store's statement building and the parameters it binds;
- the opening-balance rule of `create_account`, spending by category, `DatabaseFactory.create`, and main1.py's error wrapping.

The database is an in-memory store. Accounts and transactions are sequences in insertion order. "Sorted by `created_at` descending" is modelled as the reversed sequence (`Records.NewestFirst`); records with equal timestamps are taken in reverse insertion order (see "## Left out").

Modules:

- `Records` (records.dfy): the stored record types, `str.lower()` on types, user and account restriction, newest-first order.
- `Ledger` (ledger.dfy): the balance fold shared by the three `get_*account_balances` copies, the loop that computes it, and what it means. The lemmas cover which records fail with KeyError, each account's balance, how the sum of balances moves, and transfers conserving it.
- `MongoFilter` (mongo_filter.dfy): query values and matching, the payload-to-query composition, and the `skip`/`limit` window.
- `Spending` (spending.dfy): the debit-per-category report.
- `MongoTracker` (mongo_tracker.dfy): main.py's `ExpenseTracker`, a class over the two collections. It proves that `prev_balance` equals the ledger balance when types of incoming transfers are stored in lower case, and that the stored balance is the next `prev_balance`.
- `DataAccess` (data_access.dfy): the `Database` class with both backends (MongoDB and SQLite), the SQLite statement, the one-query running balance, and the factory. It proves that this running balance equals the ledger balance when no transfer comes in from another account. It also proves it misses incoming transfers in general (`IncomingTransferMissed`).
- `InterfaceTracker` (interface_tracker.dfy): main1.py's `ExpenseTracker` over a `DataAccess.Database`.

Behaviour the proofs bring out:

- main.py's running balance counts transfers that come into the account.
- The data-access layer's running balance ignores them.
- On SQLite, an empty account name filters nothing.
- main1.py's filter passes the accounts condition as an `{"$in": accounts}` document, a Python dict. The SQLite store cannot bind that dict, so the call fails. It ignores every other condition.
- main1.py's negative `limit` drops records from the end. A driver cursor with the same limit keeps records from the front.

Python floats are modelled as `int` (minor units) and dates as day numbers. The behaviour follows the Python code.

## Model

| member | source | states |
|---|---|---|
| Records.Lower | Expence-Manager-Backend/main.py:443 | lower-casing keeps the length, maps each ASCII capital to its lower-case letter and keeps every other character |
| Records.OwnedBy | Expence-Manager-Backend/data_access.py:145 | the `{"user_id": u}` result holds exactly the stored records of `u` |
| Records.FromAccount | Expence-Manager-Backend/main.py:288-291 | the outgoing cursor holds exactly the stored records of `u` whose `account` is `x` |
| Records.NewestFirst | Expence-Manager-Backend/main.py:370 | sorting by `created_at` descending reverses insertion order, element by element |
| Records.AccountNames | Expence-Manager-Backend/main.py:435-437 | the names are exactly those of the user's stored accounts |
| Ledger.Zeros | Expence-Manager-Backend/main.py:437 | the starting map has exactly the account names as keys, each at 0 |
| Ledger.ApplyMeaning | Expence-Manager-Backend/main.py:440-455 | one record fails, always with KeyError, exactly when it touches an account that has no entry; otherwise keys stay and each balance moves by the record's effect |
| Ledger.FoldMeaning | Expence-Manager-Backend/main.py:440-456 | the loop fails exactly when some record touches an unknown account; on success every balance is its starting value plus the records' effects |
| Ledger.AccountBalancesMeaning | Expence-Manager-Backend/main.py:434-456 | from zeros over the newest-first records: success iff every record's accounts are known, keys are the account names, and each balance is the account's net |
| Ledger.ApplyRecord | Expence-Manager-Backend/main.py:441-455 | one loop iteration computes exactly the fold's step |
| Ledger.ComputeBalances | Expence-Manager-Backend/data_access.py:415-437 | the loop over the records computes the fold, stopping at the first KeyError |
| Ledger.FoldErrPersists | Expence-Manager-Backend/data_access.py:420-435 | once a prefix fails, the whole loop fails with the same error |
| Ledger.ApplyTotal | Expence-Manager-Backend/main.py:446-455 | one record moves the sum of all balances by its net effect: +amount for credit, -amount for debit or debt, 0 for a transfer to an account |
| Ledger.TransferTotal | Expence-Manager-Backend/main.py:452-455 | a transfer leaves the sum of all balances unchanged unless its destination is "None" |
| Ledger.FoldTotal | Expence-Manager-Backend/data_access.py:172-193 | over a whole fold the sum of all balances moves by the sum of the records' net effects |
| Ledger.TransfersConserveTotal | Expence-Manager-Backend/data_access.py:432-435 | records that are all transfers between accounts leave the sum of all balances unchanged |
| Ledger.TransfersNetZero | Expence-Manager-Backend/main.py:452-455 | transfers with a destination have zero net effect on the total |
| Ledger.AccountNetAppend | Expence-Manager-Backend/main.py:440-455 | an account's net over two runs of records is the sum of the two nets |
| Ledger.AccountNetNewestFirst | Expence-Manager-Backend/main.py:438 | an account's net over the records read newest first equals its net in stored order |
| Ledger.AccountNetOwnedStep | Expence-Manager-Backend/main.py:440-455 | one more stored record adds its effect to the account's net exactly when it is the user's |
| Ledger.OpeningTransaction | Expence-Manager-Backend/main.py:253-259 | no record iff the initial balance is 0; otherwise credit iff positive, debit iff negative, amount its absolute value |
| Ledger.OpeningRestoresInitial | Expence-Manager-Backend/main.py:253-263 | applying the opening record to a fresh zero account sets it to the initial balance |
| MongoFilter.Select | Expence-Manager-Backend/data_access.py:150 | `find(query)` keeps exactly the stored records that match every condition |
| MongoFilter.PayloadQuery | Expence-Manager-Backend/main.py:388-419 | each key is present iff its field is set (0 counts for the amounts); date and amount carry the given bounds; no `user_id` |
| MongoFilter.PayloadQueryMeaning | Expence-Manager-Backend/main.py:388-419 | a record matches the payload's query iff it satisfies every given field |
| MongoFilter.UserQueryMeaning | Expence-Manager-Backend/main.py:384-419 | a record matches the user-scoped query iff it is the user's and satisfies the payload |
| MongoFilter.BuiltAddsPayload | Expence-Manager-Backend/main.py:388-419 | adding the keys one at a time onto a base without filter keys gives base plus the payload's query |
| MongoFilter.UserQueryByKeys | Expence-Manager-Backend/main.py:384-419 | the step-by-step build from `{"user_id": u}` is the user-scoped query |
| MongoFilter.PayloadByKeys | Expence-Manager-Backend/main1.py:122-152 | the step-by-step build from `{}` is the payload's query |
| MongoFilter.Window | Expence-Manager-Backend/main.py:421-422 | a negative skip fails; otherwise the window holds rows from `skip` on, at most `|limit|` of them (all for 0) |
| MongoFilter.WindowMembers | Expence-Manager-Backend/main.py:422 | a page holds only rows of the query result |
| MongoFilter.PagesTile | Expence-Manager-Backend/main.py:421 | with a positive limit, pages 1..k put together are the first k*limit rows |
| MongoTracker.Received | Expence-Manager-Backend/main.py:302-306 | the incoming cursor holds exactly the stored records of the user whose `to_account` is the account and whose type is exactly "transferred" or "self_transferred" |
| MongoTracker.ComposeFilter | Expence-Manager-Backend/main.py:383-419 | the query built key by key is the user-scoped payload query |
| MongoTracker.ExpenseTracker.CreateAccount | Expence-Manager-Backend/main.py:243-268 | a duplicate name is refused with ValueError and nothing changes; otherwise the account is appended, followed by the opening record if any |
| MongoTracker.ExpenseTracker.AddTransaction | Expence-Manager-Backend/main.py:270-343 | a missing source account, then a missing destination other than "None", is refused before any insert; otherwise exactly one record is appended with its running balance |
| MongoTracker.ExpenseTracker.ComputePrevBalance | Expence-Manager-Backend/main.py:285-310 | the two cursor loops compute the outgoing signed sum plus the incoming transfer amounts |
| MongoTracker.ExpenseTracker.GetTransactionsByFilter | Expence-Manager-Backend/main.py:383-432 | the page is the newest-first window of the user's matching records; it fails iff skip is negative; every record is the user's and satisfies the payload; at most `limit` records |
| MongoTracker.ExpenseTracker.GetAllAccountBalances | Expence-Manager-Backend/main.py:434-456 | the fold over the user's records: KeyError iff some record touches an unknown account, otherwise each account's net |
| MongoTracker.ExpenseTracker.GetSpendingByCategory | Expence-Manager-Backend/main.py:459-480 | the spending report over the user's records |
| MongoTracker.AddSent | Expence-Manager-Backend/main.py:293-299 | the outgoing loop adds each record's amount signed by its lower-cased type |
| MongoTracker.AddReceived | Expence-Manager-Backend/main.py:308-310 | the incoming loop adds every amount |
| MongoTracker.FilterPageMeaning | Expence-Manager-Backend/main.py:383-422 | every record of a page is stored, the user's, and satisfies the payload |
| MongoTracker.PrevBalanceMatchesLedger | Expence-Manager-Backend/main.py:285-310 | when incoming transfer types are stored in lower case, `prev_balance` is the account's ledger balance |
| MongoTracker.InboundIsTransferType | Expence-Manager-Backend/main.py:305 | the exact `$in` type match agrees with the ledger's transfer test for lower-case types |
| MongoTracker.StoredBalanceIsNextPrev | Expence-Manager-Backend/main.py:312-324 | the stored `transaction_balance` is the `prev_balance` the next insert will see (for anything but a self-transfer) |
| MongoTracker.SelfTransferStoredBalance | Expence-Manager-Backend/main.py:320-322 | a self-transfer nets zero in `prev_balance`, yet its stored balance is raised by its amount |
| MongoTracker.OpeningRecordBalance | Expence-Manager-Backend/main.py:253-263 | the opening record of an account with no records stores the initial balance |
| Spending.Period | Expence-Manager-Backend/main1.py:167-170 | the date restriction applies only when both ends are given, both inclusive |
| Spending.Debits | Expence-Manager-Backend/main1.py:173 | exactly the records whose lower-cased type is "debit" |
| Spending.GroupSum | Expence-Manager-Backend/main1.py:175 | one entry per category present |
| Spending.GroupSumTotals | Expence-Manager-Backend/main1.py:175 | each entry is the sum of its category's amounts |
| Spending.SpendingByCategory | Expence-Manager-Backend/main1.py:159-176 | keys are the categories of the period's debits; each value is that category's total; empty input gives `{}` |
| DataAccess.BackendFor | Expence-Manager-Backend/data_access.py:442-450 | "mongodb" gives MongoDB with the given settings; "sqlite" gives SQLite on a non-empty connection string, and on "expense_tracker.db" when it is missing or empty; anything else is ValueError |
| DataAccess.Create | Expence-Manager-Backend/data_access.py:440-450 | a fresh store of the chosen backend over the given collections, or the ValueError |
| DataAccess.SelectAccount | Expence-Manager-Backend/data_access.py:106 | the MongoDB query on the user and one account selects that account's records of the user |
| DataAccess.SelectUser | Expence-Manager-Backend/data_access.py:174 | the MongoDB query on the user alone selects all the user's records |
| DataAccess.SqlForShape | Expence-Manager-Backend/data_access.py:375-388 | the statement begins with `SELECT ... WHERE user_id = ?` and ends with ` ORDER BY created_at DESC`; between them stands ` AND account = ?` iff there is a truthy account filter, and nothing otherwise |
| DataAccess.SqlPlaceholdersMatchParams | Expence-Manager-Backend/data_access.py:376-388 | the statement has exactly as many `?` as bound parameters |
| DataAccess.SqliteIgnoresOtherFilters | Expence-Manager-Backend/data_access.py:379-386 | with no account filter, SQLite returns all the user's rows whatever the other filters |
| DataAccess.PrevBalance | Expence-Manager-Backend/data_access.py:317-331 | the loop computes the rows' net for the account |
| DataAccess.TransactionBalance | Expence-Manager-Backend/data_access.py:333-347 | a balance is assigned iff the lower-cased type is recognised |
| DataAccess.RowsNetNewestFirst | Expence-Manager-Backend/data_access.py:315-331 | the running balance over the rows newest first equals the one in stored order |
| DataAccess.StoredBalanceIsNextPrev | Expence-Manager-Backend/data_access.py:312-347 | for a recognised type, the stored balance is the `prev_balance` the next insert on that account will see |
| DataAccess.PrevMatchesLedgerWithoutIncoming | Expence-Manager-Backend/data_access.py:315-331 | when no transfer comes in from another account, the running balance is the account's ledger balance |
| DataAccess.IncomingTransferMissed | Expence-Manager-Backend/data_access.py:315 | a transfer of 5 from A to B: the ledger credits B with 5, while B's running balance stays 0 |
| DataAccess.SqliteEmptyAccountSeesAll | Expence-Manager-Backend/data_access.py:381 | on SQLite an empty account name adds no condition, so the running balance sums all the user's rows |
| DataAccess.RowsOwned | Expence-Manager-Backend/data_access.py:144-156 | unless a filter overrides `user_id`, every returned row is stored and the user's |
| DataAccess.Database.CreateAccount | Expence-Manager-Backend/data_access.py:83-92 | a duplicate (user, name) is refused with ValueError and nothing changes; otherwise the account is appended |
| DataAccess.Database.SqliteStatement | Expence-Manager-Backend/data_access.py:375-388 | the statement and parameters are built condition by condition |
| DataAccess.Database.GetTransactions | Expence-Manager-Backend/data_access.py:144-156 | the rows of the backend's query; it fails iff SQLite gets a truthy account filter that is not a string, naming the value's Python type (`dict` for `{"$in": ...}`); rows are the user's unless a filter overrides `user_id` |
| DataAccess.Database.MongoFind | Expence-Manager-Backend/data_access.py:145-150 | `{"user_id": u}` updated with the filters, found, newest first |
| DataAccess.Database.SqliteExecute | Expence-Manager-Backend/data_access.py:388-390 | the SQLite statement's rows, or the binding error naming the Python type (`dict`, `str`, `list`) of a non-string account value |
| DataAccess.Database.AddTransaction | Expence-Manager-Backend/data_access.py:312-373 | SQLite refuses an unrecognised type with the unbound-variable error and inserts nothing; otherwise exactly one record is appended with its balance |
| DataAccess.Database.GetAccountBalances | Expence-Manager-Backend/data_access.py:172-193 | the fold over the user's records: KeyError iff some record touches an unknown account, otherwise each account's net |
| InterfaceTracker.LimitSlice | Expence-Manager-Backend/main1.py:116-118 | a prefix of the records: all of them for no limit or 0, the first `n` for a positive `n`, all but the last `-n` for a negative `n` |
| InterfaceTracker.LimitSliceIsCursorLimit | Expence-Manager-Backend/main1.py:118 | a positive limit keeps what a cursor with the same limit returns |
| InterfaceTracker.NegativeLimitDropsTail | Expence-Manager-Backend/main1.py:118 | for a negative limit the slice drops the last `-n` records, where a cursor keeps the first `-n` |
| InterfaceTracker.ComposeFilter | Expence-Manager-Backend/main1.py:120-152 | the filter built key by key is the payload's query: no `user_id`, page or limit |
| InterfaceTracker.ExpenseTracker.CreateAccount | Expence-Manager-Backend/main1.py:69-89 | the store's duplicate refusal surfaces as ValueError with the same text and nothing changes; otherwise the account, then the opening record, are stored |
| InterfaceTracker.ExpenseTracker.AddTransaction | Expence-Manager-Backend/main1.py:91-108 | the store's unbound-variable failure surfaces as ValueError with its text; otherwise the store's record is appended |
| InterfaceTracker.ExpenseTracker.GetTransactions | Expence-Manager-Backend/main1.py:116-118 | the user's records newest first, cut by the limit slice, on either backend |
| InterfaceTracker.ExpenseTracker.GetTransactionsByFilter | Expence-Manager-Backend/main1.py:120-154 | on MongoDB: all of the user's matching records, newest first, unpaged. On SQLite: fails iff accounts are given, with the binding error for a `dict`; otherwise returns all the user's records |
| InterfaceTracker.ExpenseTracker.GetAllAccountBalances | Expence-Manager-Backend/main1.py:156-157 | the store's fold: KeyError only, keys are the account names, each balance the account's net |
| InterfaceTracker.ExpenseTracker.GetSpendingByCategory | Expence-Manager-Backend/main1.py:159-176 | the spending report over all the user's records |
| InterfaceTracker.FilterQueryIsUserQuery | Expence-Manager-Backend/main1.py:154 | the store's `{"user_id": u}` updated with main1's filter is main.py's user-scoped query |
| InterfaceTracker.SqliteReadsOnlyAccounts | Expence-Manager-Backend/main1.py:143-154 | on SQLite, given accounts the `{"$in": accounts}` document fails to bind as type 'dict'; without them every condition is ignored |
| InterfaceTracker.FilterIsUnlimitedFirstPage | Expence-Manager-Backend/main1.py:154 | on MongoDB main1's result is main.py's page 1 with no limit for the same payload |
| InterfaceTracker.OpeningRecordMeaning | Expence-Manager-Backend/main1.py:76-86 | 0 gives no record; otherwise one credit (positive) or debit (negative) record of the absolute amount on the account, with no destination |

## Left out

- async/await, FastAPI routing, HTTP error mapping, CORS and the application lifespan: every operation is modelled as a sequential call.
- JWT tokens, bcrypt password hashing and the user operations (`create_user`, `get_user_by_email`), which are outside the ledger and query core.
- Real MongoDB/motor and aiosqlite calls, index creation and the SQL DDL (`initialize`, `close`). The store is two in-memory sequences.
- MongoDB's unique (user, name) index and SQLite's UNIQUE constraint are modelled by their effect: a name check before insert.
- Generated ids: an id is the new record's position in its sequence, not an ObjectId or row id.
- `delete_transaction` and `update_transaction_status` are not part of this model; they are outside the balance and query rules.
- matplotlib plots and base64 PNG encoding.
- pandas internals: only the group-by-sum meaning of spending-by-category is modelled.
- Regular-expression semantics of `searchTerm`: matching is a parameter `rx(term, text)`.
- Python floats: amounts and balances are integers (minor units). The sums and conservation laws hold exactly only in that abstraction.
- Dates are integer day numbers. `datetime.combine`, `strftime` and `fromisoformat` are not modelled. Records are stored at midnight, so main.py's and main1.py's end-of-day `dateTo` bound is an inclusive day bound.
- Records.Lower: lower-cases ASCII letters only; non-ASCII capitals, which Python's `str.lower()` also maps, are kept unchanged.
- SQLite's `int(user_id)` conversion and the ValueError it raises for a non-numeric user id.
- The binding failure's text is CPython's wording for an unsupported parameter type. sqlite3's exception class is not modelled.
- main.py's branch for a `type` filter that is not a list: the payload model declares a list, so that branch is not reachable through the endpoint.
- main1.py's lifespan calls `DatabaseFactory.create` without `await`. Store creation is modelled as the factory's result, not that call.
- DataAccess.Database.SqliteStatement: does not state the placeholder count itself; the count is stated by `DataAccess.SqlPlaceholdersMatchParams` about the same statement.
- InterfaceTracker.ExpenseTracker.GetTransactionsByFilter: main1.py has no pagination, so page and limit of the payload have no effect, as in the source.
- Records.NewestFirst: `created_at` ties are modelled as reverse insertion order. SQLite's `CURRENT_TIMESTAMP` has one-second resolution and MongoDB's `utcnow()` millisecond precision, so records created together tie, and the databases return ties in an order of their own. That order decides which records a limit or a page returns and which KeyError the balance fold raises first.
- main.py's running-balance cursors sort by `date`; that order is not modelled (the cursors are read in insertion order). The sums are invariant under reversal (`Ledger.AccountNetNewestFirst`, `DataAccess.RowsNetNewestFirst`); invariance under an arbitrary permutation is not proved.
- `_fetch_all` and `_fetch_one` (data_access.py:256-266) convert every SQLite row with `dict(row)`. No row factory is set, so aiosqlite returns tuples and that conversion raises TypeError for any non-empty result. The model assumes rows come back as mappings, so its SQLite reads (`DataAccess.Database.GetTransactions`, `SqliteExecute`, `GetAccountBalances`) return the rows the statement selects.
- DataAccess.Truthy: an `{"$in": ...}` document is always truthy, as a non-empty Python dict is; main1.py builds one only for a non-empty accounts list.
