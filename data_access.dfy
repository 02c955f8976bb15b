/**
 * The data-access layer of data_access.py: one database interface with a
 * MongoDB and an SQLite implementation, and the factory that picks one.
 *
 * Both implementations keep the same two collections, modelled as the
 * sequences `accounts` and `transactions` of a `Database` object (every
 * user's records together, in insertion order). They differ in how
 * `get_transactions` reads a filter, and so in the rows `add_transaction`
 * sums for its running balance.
 */
module DataAccess {
  import opened Records
  import Ledger
  import MongoFilter

  type Query = MongoFilter.Query

  datatype Backend =
    | MongoBackend(connectionString: Option<string>, dbName: Option<string>)
    | SqliteBackend(path: string)

  const DEFAULT_SQLITE_PATH: string := "expense_tracker.db"

  /**
   * The backend `DatabaseFactory.create` chooses: "mongodb" or "sqlite" (whose
   * file is the connection string when one is given and non-empty, the
   * default file otherwise); any other type is refused with ValueError.
   */
  function BackendFor(dbType: string, connectionString: Option<string>, dbName: Option<string>): (r: Result<Backend>)
    ensures r.Ok? <==> dbType == "mongodb" || dbType == "sqlite"
    ensures r.Err? ==> r.error == ValueError("Unsupported database type: " + dbType)
    ensures r.Ok? ==> (r.value.MongoBackend? <==> dbType == "mongodb")
    ensures r.Ok? && r.value.MongoBackend? ==>
              r.value.connectionString == connectionString && r.value.dbName == dbName
    ensures r.Ok? && r.value.SqliteBackend? ==> r.value.path != ""
    ensures r.Ok? && r.value.SqliteBackend? && connectionString.Some? && connectionString.value != "" ==>
              r.value.path == connectionString.value
    ensures dbType == "sqlite" && (connectionString.None? || connectionString.value == "") ==>
              r == Ok(SqliteBackend(DEFAULT_SQLITE_PATH))
  {
    if dbType == "mongodb" then Ok(MongoBackend(connectionString, dbName))
    else if dbType == "sqlite" then
      Ok(SqliteBackend(if connectionString.Some? && connectionString.value != ""
                       then connectionString.value else DEFAULT_SQLITE_PATH))
    else Err(ValueError("Unsupported database type: " + dbType))
  }

  /** The `transaction_data` dict of `add_transaction`, before the store adds to it. */
  datatype Entry = Entry(
    date: int,
    description: string,
    place: string,
    amount: int,
    kind: string,
    category: string,
    account: string,
    toAccount: string,
    paidBy: string,
    status: string)

  /** The record stored for an entry of user `u`. */
  function Stored(u: string, e: Entry, balance: Option<int>): Txn
  {
    Txn(u, e.date, e.description, e.place, e.amount, e.kind, e.category, e.account, e.toAccount,
        e.paidBy, e.status, balance)
  }

  /** Python truthiness of a condition value; an `{"$in": ...}` document has a key, so it is truthy. */
  predicate Truthy(v: MongoFilter.Value)
  {
    match v
    case Text(s) => s != ""
    case AnyOf(_) => true
    case Bounds(b) => b != MongoFilter.NO_RANGE
    case SearchAny(_) => true
  }

  /** `if filters:` — a filter dict is given and not empty. */
  predicate FiltersGiven(filters: Option<Query>)
  {
    filters.Some? && filters.value != map[]
  }

  /** The only filter the SQLite store reads: a truthy `account`. */
  predicate AccountCondition(filters: Option<Query>)
  {
    FiltersGiven(filters) && MongoFilter.Key.Account in filters.value
    && Truthy(filters.value[MongoFilter.Key.Account])
  }

  // ---------------------------------------------------------------- MongoDB

  /** `{"user_id": u}` updated with the filters (a filter key overrides). */
  function MongoQuery(u: string, filters: Option<Query>): Query
  {
    map[MongoFilter.UserId := MongoFilter.Text(u)] + (if FiltersGiven(filters) then filters.value else map[])
  }

  /** A query on the user and one account selects that account's records of the user. */
  lemma {:induction false} SelectAccount(u: string, x: string, s: seq<Txn>, rx: (string, string) -> bool)
    ensures MongoFilter.Select(MongoQuery(u, Some(map[MongoFilter.Key.Account := MongoFilter.Text(x)])), s, rx)
            == FromAccount(u, x, s)
    decreases |s|
  {
    var q := MongoQuery(u, Some(map[MongoFilter.Key.Account := MongoFilter.Text(x)]));
    if s != [] {
      var t := s[|s| - 1];
      SelectAccount(u, x, s[..|s| - 1], rx);
      assert MongoFilter.Matches(q, t, rx) <==> t.user == u && t.account == x by {
        assert q.Keys == {MongoFilter.UserId, MongoFilter.Key.Account};
        assert MongoFilter.Holds(MongoFilter.UserId, q[MongoFilter.UserId], t, rx) <==> t.user == u;
        assert MongoFilter.Holds(MongoFilter.Key.Account, q[MongoFilter.Key.Account], t, rx) <==> t.account == x;
      }
    }
  }

  /** A query on the user alone selects all of the user's records. */
  lemma {:induction false} SelectUser(u: string, s: seq<Txn>, rx: (string, string) -> bool)
    ensures MongoFilter.Select(MongoQuery(u, None), s, rx) == OwnedBy(u, s)
    decreases |s|
  {
    var q := MongoQuery(u, None);
    if s != [] {
      var t := s[|s| - 1];
      SelectUser(u, s[..|s| - 1], rx);
      assert MongoFilter.Matches(q, t, rx) <==> t.user == u by {
        assert q.Keys == {MongoFilter.UserId};
        assert MongoFilter.Holds(MongoFilter.UserId, q[MongoFilter.UserId], t, rx) <==> t.user == u;
      }
    }
  }

  // ----------------------------------------------------------------- SQLite

  /** A parameter bound to a `?` of the statement. */
  datatype Param = UserParam(id: string) | ValueParam(v: MongoFilter.Value)

  const SELECT_BY_USER: string := "SELECT * FROM transactions WHERE user_id = ?"
  const ACCOUNT_CONDITION: string := "account = ?"
  const CONJUNCTION: string := " AND "
  const ORDER_NEWEST: string := " ORDER BY created_at DESC"

  /** The number of `?` placeholders in a statement. */
  function Placeholders(sql: string): nat
  {
    multiset(sql)['?']
  }

  /** `sep.join(parts)`. */
  function Join(sep: string, parts: seq<string>): string
    decreases |parts|
  {
    if parts == [] then ""
    else if |parts| == 1 then parts[0]
    else parts[0] + sep + Join(sep, parts[1..])
  }

  /** The statement the SQLite store runs for `get_transactions`. */
  function SqlFor(filters: Option<Query>): string
  {
    if AccountCondition(filters) then SELECT_BY_USER + (CONJUNCTION + ACCOUNT_CONDITION) + ORDER_NEWEST
    else SELECT_BY_USER + ORDER_NEWEST
  }

  /**
   * The statement starts with the user condition and ends with the order
   * clause; between the two stands ` AND account = ?` exactly when there is
   * a truthy account filter, and nothing otherwise.
   */
  lemma SqlForShape(filters: Option<Query>)
    ensures |SqlFor(filters)| >= |SELECT_BY_USER| + |ORDER_NEWEST|
    ensures SqlFor(filters)[..|SELECT_BY_USER|] == SELECT_BY_USER
    ensures SqlFor(filters)[|SqlFor(filters)| - |ORDER_NEWEST|..] == ORDER_NEWEST
    ensures SqlFor(filters)[|SELECT_BY_USER|..|SqlFor(filters)| - |ORDER_NEWEST|]
            == if AccountCondition(filters) then CONJUNCTION + ACCOUNT_CONDITION else ""
  {
    var middle := if AccountCondition(filters) then CONJUNCTION + ACCOUNT_CONDITION else "";
    Sandwich(SELECT_BY_USER, middle, ORDER_NEWEST);
    assert SqlFor(filters) == SELECT_BY_USER + middle + ORDER_NEWEST;
  }

  lemma Sandwich(a: string, m: string, o: string)
    ensures (a + m + o)[..|a|] == a
    ensures (a + m + o)[|a + m + o| - |o|..] == o
    ensures (a + m + o)[|a|..|a + m + o| - |o|] == m
  {
  }

  /** The parameters it binds: the user, then the account filter's value when there is one. */
  function ParamsFor(u: string, filters: Option<Query>): seq<Param>
  {
    [UserParam(u)]
    + (if AccountCondition(filters) then [ValueParam(filters.value[MongoFilter.Key.Account])] else [])
  }

  lemma PlaceholdersAppend(a: string, b: string)
    ensures Placeholders(a + b) == Placeholders(a) + Placeholders(b)
  {
  }

  lemma NoPlaceholder(s: string)
    requires '?' !in s
    ensures Placeholders(s) == 0
  {
  }

  lemma SelectSplits()
    ensures SELECT_BY_USER == "SELECT * FROM transactions WHERE user_id = " + "?"
    ensures '?' !in "SELECT * FROM transactions WHERE user_id = "
  {
  }

  lemma SelectPlaceholders()
    ensures Placeholders(SELECT_BY_USER) == 1
  {
    SelectSplits();
    NoPlaceholder("SELECT * FROM transactions WHERE user_id = ");
    PlaceholdersAppend("SELECT * FROM transactions WHERE user_id = ", "?");
  }

  lemma ConditionSplits()
    ensures ACCOUNT_CONDITION == "account = " + "?"
    ensures '?' !in "account = " && '?' !in CONJUNCTION
  {
  }

  lemma ConditionPlaceholders()
    ensures Placeholders(CONJUNCTION + ACCOUNT_CONDITION) == 1
  {
    ConditionSplits();
    NoPlaceholder("account = ");
    PlaceholdersAppend("account = ", "?");
    NoPlaceholder(CONJUNCTION);
    PlaceholdersAppend(CONJUNCTION, ACCOUNT_CONDITION);
  }

  lemma OrderPlaceholders()
    ensures Placeholders(ORDER_NEWEST) == 0
  {
    NoPlaceholder(ORDER_NEWEST);
  }

  /** The statement has exactly one placeholder per bound parameter. */
  lemma SqlPlaceholdersMatchParams(u: string, filters: Option<Query>)
    ensures Placeholders(SqlFor(filters)) == |ParamsFor(u, filters)|
  {
    if AccountCondition(filters) {
      FilteredPlaceholders();
    } else {
      UnfilteredPlaceholders();
    }
  }

  lemma FilteredPlaceholders()
    ensures Placeholders(SELECT_BY_USER + (CONJUNCTION + ACCOUNT_CONDITION) + ORDER_NEWEST) == 2
  {
    SelectPlaceholders();
    ConditionPlaceholders();
    OrderPlaceholders();
    PlaceholdersAppend(SELECT_BY_USER, CONJUNCTION + ACCOUNT_CONDITION);
    PlaceholdersAppend(SELECT_BY_USER + (CONJUNCTION + ACCOUNT_CONDITION), ORDER_NEWEST);
  }

  lemma UnfilteredPlaceholders()
    ensures Placeholders(SELECT_BY_USER + ORDER_NEWEST) == 1
  {
    SelectPlaceholders();
    OrderPlaceholders();
    PlaceholdersAppend(SELECT_BY_USER, ORDER_NEWEST);
  }

  /** The Python type of a condition value, as sqlite3 names it when it cannot bind the value. */
  function PythonType(v: MongoFilter.Value): string
  {
    match v
    case Text(_) => "str"
    case AnyOf(_) => "dict"
    case Bounds(_) => "dict"
    case SearchAny(_) => "list"
  }

  /** sqlite3's refusal to bind the second parameter, a value of the named type. */
  function BindingFailure(typeName: string): Error
  {
    BindingError("Error binding parameter 2: type '" + typeName + "' is not supported")
  }

  /**
   * What the SQLite statement returns: the user's rows, restricted to one
   * account when the account filter is truthy, newest first. An account
   * filter that is not a string cannot be bound and fails.
   */
  function SqliteRows(u: string, filters: Option<Query>, s: seq<Txn>): Result<seq<Txn>>
  {
    if AccountCondition(filters) then
      match filters.value[MongoFilter.Key.Account]
      case Text(a) => Ok(NewestFirst(FromAccount(u, a, s)))
      case v => Err(BindingFailure(PythonType(v)))
    else Ok(NewestFirst(OwnedBy(u, s)))
  }

  /** `get_transactions` of either store. */
  function Rows(backend: Backend, u: string, filters: Option<Query>, s: seq<Txn>, rx: (string, string) -> bool)
    : Result<seq<Txn>>
  {
    match backend
    case MongoBackend(_, _) => Ok(NewestFirst(MongoFilter.Select(MongoQuery(u, filters), s, rx)))
    case SqliteBackend(_) => SqliteRows(u, filters, s)
  }

  /** Apart from the account, the SQLite store ignores every filter: it returns all the user's rows. */
  lemma SqliteIgnoresOtherFilters(u: string, q: Query, s: seq<Txn>)
    requires MongoFilter.Key.Account !in q
    ensures SqliteRows(u, Some(q), s) == Ok(NewestFirst(OwnedBy(u, s)))
  {
  }

  // -------------------------------------------------------- running balance

  /** What one row adds to the running balance of account `x` in `add_transaction`. */
  function RowContribution(x: string, t: Txn): int
  {
    if IsCredit(t.kind) then t.amount
    else if IsDebit(t.kind) || IsDebt(t.kind) then -t.amount
    else if IsTransfer(t.kind) then -t.amount + (if t.toAccount == x then t.amount else 0)
    else 0
  }

  function RowsNet(x: string, rows: seq<Txn>): int
    decreases |rows|
  {
    if rows == [] then 0 else RowsNet(x, rows[..|rows| - 1]) + RowContribution(x, rows[|rows| - 1])
  }

  /** The rows the running balance of account `x` sums, in stored order. */
  function PrevRows(backend: Backend, u: string, x: string, s: seq<Txn>): seq<Txn>
  {
    if backend.SqliteBackend? && x == "" then OwnedBy(u, s) else FromAccount(u, x, s)
  }

  /** The `prev_balance` loop over the rows `get_transactions` returned. */
  method PrevBalance(x: string, rows: seq<Txn>) returns (prev: int)
    ensures prev == RowsNet(x, rows)
  {
    prev := 0;
    var i := 0;
    while i < |rows|
      invariant i <= |rows|
      invariant prev == RowsNet(x, rows[..i])
    {
      var t := rows[i];
      var kind := Lower(t.kind);
      if kind == "credit" {
        prev := prev + t.amount;
      } else if kind == "debit" {
        prev := prev - t.amount;
      } else if kind == "debt_incurred" {
        prev := prev - t.amount;
      } else if kind == "transferred" || kind == "self_transferred" {
        prev := prev - t.amount;
        if t.toAccount == x {
          prev := prev + t.amount;
        }
      }
      assert rows[..i + 1][..i] == rows[..i];
      i := i + 1;
    }
    assert rows[..i] == rows;
  }

  /** `transaction_balance` of the new record; `None` when no branch assigns it. */
  function TransactionBalance(prev: int, e: Entry): (r: Option<int>)
    ensures r.Some? <==> Recognised(e.kind)
  {
    if IsCredit(e.kind) then Some(prev + e.amount)
    else if IsDebit(e.kind) || IsDebt(e.kind) then Some(prev - e.amount)
    else if IsTransfer(e.kind) then Some(prev - e.amount + (if e.toAccount == e.account then e.amount else 0))
    else None
  }

  lemma {:induction false} RowsNetAppend(x: string, a: seq<Txn>, b: seq<Txn>)
    ensures RowsNet(x, a + b) == RowsNet(x, a) + RowsNet(x, b)
    decreases |b|
  {
    if b != [] {
      assert (a + b)[..|a + b| - 1] == a + b[..|b| - 1];
      RowsNetAppend(x, a, b[..|b| - 1]);
    } else {
      assert a + b == a;
    }
  }

  /** The running balance does not depend on the order the rows come in. */
  lemma {:induction false} RowsNetNewestFirst(x: string, s: seq<Txn>)
    ensures RowsNet(x, NewestFirst(s)) == RowsNet(x, s)
    decreases |s|
  {
    if s != [] {
      var p, t := s[..|s| - 1], s[|s| - 1];
      RowsNetNewestFirst(x, p);
      assert NewestFirst(s) == [t] + NewestFirst(p);
      RowsNetAppend(x, [t], NewestFirst(p));
      assert RowsNet(x, [t]) == RowContribution(x, t) by {
        assert [t][..0] == [];
      }
    }
  }

  /** What one more stored record adds to the running balance of `x` over its account's records. */
  lemma RowsNetStep(u: string, x: string, s: seq<Txn>, t: Txn)
    ensures RowsNet(x, FromAccount(u, x, s + [t]))
            == RowsNet(x, FromAccount(u, x, s)) + (if t.user == u && t.account == x then RowContribution(x, t) else 0)
  {
    FiltersAppend(u, x, s, t);
    if t.user == u && t.account == x {
      var f := FromAccount(u, x, s) + [t];
      assert f[..|f| - 1] == FromAccount(u, x, s);
      assert RowsNet(x, f) == RowsNet(x, FromAccount(u, x, s)) + RowContribution(x, t);
    } else {
      assert FromAccount(u, x, s + [t]) == FromAccount(u, x, s) + [] == FromAccount(u, x, s);
    }
  }

  /**
   * The balance stored on a record of a recognised type is the running
   * balance the next record of the same account starts from.
   */
  lemma StoredBalanceIsNextPrev(u: string, s: seq<Txn>, e: Entry, t: Txn)
    requires Recognised(e.kind)
    requires t.user == u && t.account == e.account && t.kind == e.kind && t.amount == e.amount
             && t.toAccount == e.toAccount
    ensures TransactionBalance(RowsNet(e.account, FromAccount(u, e.account, s)), e)
            == Some(RowsNet(e.account, FromAccount(u, e.account, s + [t])))
  {
    RowsNetOwnStep(u, e.account, s, t);
    BalanceIsContribution(RowsNet(e.account, FromAccount(u, e.account, s)),
                          RowsNet(e.account, FromAccount(u, e.account, s + [t])), e, t);
  }

  /** `RowsNetStep` for a record of the account itself. */
  lemma RowsNetOwnStep(u: string, x: string, s: seq<Txn>, t: Txn)
    requires t.user == u && t.account == x
    ensures RowsNet(x, FromAccount(u, x, s + [t])) == RowsNet(x, FromAccount(u, x, s)) + RowContribution(x, t)
  {
    RowsNetStep(u, x, s, t);
  }

  /** For a recognised type, the stored balance is the previous one plus the record's own row contribution. */
  lemma BalanceIsContribution(prev: int, next: int, e: Entry, t: Txn)
    requires Recognised(e.kind)
    requires t.kind == e.kind && t.amount == e.amount && t.toAccount == e.toAccount
    requires next == prev + RowContribution(e.account, t)
    ensures TransactionBalance(prev, e) == Some(next)
  {
  }

  /**
   * The running balance counts what a transfer takes from the account but
   * not what a transfer from another account brings in; when there are no
   * such incoming transfers it is the ledger balance of the account.
   */
  lemma {:induction false} PrevMatchesLedgerWithoutIncoming(u: string, x: string, s: seq<Txn>)
    requires x != NO_ACCOUNT
    requires forall t | t in s && t.user == u && Ledger.Inbound(x, t) :: t.account == x
    ensures RowsNet(x, FromAccount(u, x, s)) == Ledger.AccountNet(x, OwnedBy(u, s))
    decreases |s|
  {
    if s != [] {
      var p, t := s[..|s| - 1], s[|s| - 1];
      assert s == p + [t];
      assert forall r | r in p :: r in s;
      PrevMatchesLedgerWithoutIncoming(u, x, p);
      PrevLedgerStep(u, x, p, t);
    }
  }

  /** One more record changes the running balance and the ledger balance alike. */
  lemma PrevLedgerStep(u: string, x: string, p: seq<Txn>, t: Txn)
    requires x != NO_ACCOUNT
    requires t.user == u && Ledger.Inbound(x, t) ==> t.account == x
    ensures RowsNet(x, FromAccount(u, x, p + [t])) - RowsNet(x, FromAccount(u, x, p))
            == Ledger.AccountNet(x, OwnedBy(u, p + [t])) - Ledger.AccountNet(x, OwnedBy(u, p))
  {
    Ledger.AccountNetOwnedStep(u, x, p, t);
    if t.user == u {
      RowEffectWithoutIncoming(x, t);
      if t.account == x {
        RowsNetOwnStep(u, x, p, t);
      } else {
        RowsNetStep(u, x, p, t);
      }
    } else {
      RowsNetStep(u, x, p, t);
    }
  }

  /** A record that is not a transfer into `x` from elsewhere moves the running balance as it moves the ledger. */
  lemma RowEffectWithoutIncoming(x: string, t: Txn)
    requires x != NO_ACCOUNT
    requires Ledger.Inbound(x, t) ==> t.account == x
    ensures (if t.account == x then RowContribution(x, t) else 0) == Ledger.Effect(x, t)
  {
  }

  /** A transfer of 5 from A to B: the ledger credits B with 5, B's running balance stays 0. */
  lemma IncomingTransferMissed()
    ensures var t := Txn("u", 0, "rent share", "bank", 5, "transferred", "Transfer", "A", "B",
                         "Self", "Pending", Some(-5));
            && RowsNet("B", FromAccount("u", "B", [t])) == 0
            && Ledger.AccountNet("B", OwnedBy("u", [t])) == 5
  {
    var t := Txn("u", 0, "rent share", "bank", 5, "transferred", "Transfer", "A", "B",
                 "Self", "Pending", Some(-5));
    assert [t][..0] == [];
    CanonicalKinds();
    assert FromAccount("u", "B", [t]) == [];
    assert OwnedBy("u", [t]) == [t];
  }

  /** Through SQLite, an empty account name filters nothing: the running balance sums all the user's rows. */
  lemma SqliteEmptyAccountSeesAll(u: string, path: string, s: seq<Txn>, rx: (string, string) -> bool)
    ensures Rows(SqliteBackend(path), u, Some(map[MongoFilter.Key.Account := MongoFilter.Text("")]), s, rx)
            == Ok(NewestFirst(OwnedBy(u, s)))
    ensures PrevRows(SqliteBackend(path), u, "", s) == OwnedBy(u, s)
  {
  }

  /**
   * Unless a filter overrides the user id (possible only through MongoDB),
   * `get_transactions` returns only records of the user, taken from the store.
   */
  lemma RowsOwned(backend: Backend, u: string, filters: Option<Query>, s: seq<Txn>, rx: (string, string) -> bool)
    requires backend.SqliteBackend? || !FiltersGiven(filters) || MongoFilter.UserId !in filters.value
    ensures Rows(backend, u, filters, s, rx).Ok? ==>
              forall t | t in Rows(backend, u, filters, s, rx).value :: t in s && t.user == u
  {
    match backend
    case MongoBackend(_, _) =>
      var q := MongoQuery(u, filters);
      assert q[MongoFilter.UserId] == MongoFilter.Text(u);
      var selected := MongoFilter.Select(q, s, rx);
      forall t | t in selected ensures t in s && t.user == u {
        assert MongoFilter.Holds(MongoFilter.UserId, q[MongoFilter.UserId], t, rx);
      }
      NewestFirstOwned(u, selected, s);
    case SqliteBackend(_) =>
      if AccountCondition(filters) && filters.value[MongoFilter.Key.Account].Text? {
        NewestFirstOwned(u, FromAccount(u, filters.value[MongoFilter.Key.Account].s, s), s);
      } else {
        NewestFirstOwned(u, OwnedBy(u, s), s);
      }
  }

  lemma NewestFirstOwned(u: string, rows: seq<Txn>, s: seq<Txn>)
    requires forall t | t in rows :: t in s && t.user == u
    ensures forall t | t in NewestFirst(rows) :: t in s && t.user == u
  {
    forall t | t in NewestFirst(rows) ensures t in s && t.user == u {
      var i :| 0 <= i < |rows| && NewestFirst(rows)[i] == t;
      assert t == rows[|rows| - 1 - i];
    }
  }

  // --------------------------------------------------------------- database

  class Database {
    const backend: Backend
    var accounts: seq<Account>
    var transactions: seq<Txn>

    constructor (backend: Backend, accounts: seq<Account>, transactions: seq<Txn>)
      ensures this.backend == backend
      ensures this.accounts == accounts && this.transactions == transactions
    {
      this.backend := backend;
      this.accounts := accounts;
      this.transactions := transactions;
    }

    /**
     * Inserts the account; the unique (user, name) index refuses a name the
     * user already has, which is reported as ValueError.
     */
    method CreateAccount(userId: string, name: string, kind: string) returns (r: Result<nat>)
      modifies this`accounts
      ensures name in AccountNames(old(accounts), userId) ==>
                r == Err(ValueError("Account with name '" + name + "' already exists."))
                && accounts == old(accounts)
      ensures name !in AccountNames(old(accounts), userId) ==>
                r == Ok(|old(accounts)|) && accounts == old(accounts) + [Account(userId, name, kind)]
    {
      if name in AccountNames(accounts, userId) {
        return Err(ValueError("Account with name '" + name + "' already exists."));
      }
      accounts := accounts + [Account(userId, name, kind)];
      r := Ok(|accounts| - 1);
    }

    /** The SQLite statement of `get_transactions`, put together condition by condition. */
    static method SqliteStatement(userId: string, filters: Option<Query>) returns (sql: string, params: seq<Param>)
      ensures sql == SqlFor(filters) && params == ParamsFor(userId, filters)
    {
      sql := SELECT_BY_USER;
      params := [UserParam(userId)];
      var conditions: seq<string> := [];
      if filters.Some? && filters.value != map[] {
        if MongoFilter.Key.Account in filters.value && Truthy(filters.value[MongoFilter.Key.Account]) {
          conditions := conditions + [ACCOUNT_CONDITION];
          params := params + [ValueParam(filters.value[MongoFilter.Key.Account])];
        }
        if conditions != [] {
          sql := sql + (CONJUNCTION + Join(CONJUNCTION, conditions));
        }
      }
      sql := sql + ORDER_NEWEST;
      assert conditions == (if AccountCondition(filters) then [ACCOUNT_CONDITION] else []);
      assert Join(CONJUNCTION, [ACCOUNT_CONDITION]) == ACCOUNT_CONDITION;
    }

    /**
     * The user's records that match the filters, newest first. MongoDB
     * applies every filter key; SQLite reads only the account filter.
     */
    method GetTransactions(userId: string, filters: Option<Query>, rx: (string, string) -> bool)
      returns (r: Result<seq<Txn>>)
      ensures r == Rows(backend, userId, filters, transactions, rx)
      ensures r.Err? <==> backend.SqliteBackend? && AccountCondition(filters)
                          && !filters.value[MongoFilter.Key.Account].Text?
      ensures r.Ok? && (backend.SqliteBackend? || !FiltersGiven(filters) || MongoFilter.UserId !in filters.value)
              ==> forall t | t in r.value :: t in transactions && t.user == userId
    {
      if backend.MongoBackend? {
        r := MongoFind(userId, filters, transactions, rx);
      } else {
        r := SqliteExecute(userId, filters, transactions);
      }
      if backend.SqliteBackend? || !FiltersGiven(filters) || MongoFilter.UserId !in filters.value {
        RowsOwned(backend, userId, filters, transactions, rx);
      }
    }

    /** The MongoDB `find`: the user id condition, overridden by any filter of the same key. */
    static method MongoFind(userId: string, filters: Option<Query>, s: seq<Txn>, rx: (string, string) -> bool)
      returns (r: Result<seq<Txn>>)
      ensures r == Ok(NewestFirst(MongoFilter.Select(MongoQuery(userId, filters), s, rx)))
    {
      var q := map[MongoFilter.UserId := MongoFilter.Text(userId)];
      if filters.Some? && filters.value != map[] {
        q := q + filters.value;
      }
      assert q == MongoQuery(userId, filters);
      r := Ok(NewestFirst(MongoFilter.Select(q, s, rx)));
    }

    /** The SQLite statement executed with its parameters bound. */
    static method SqliteExecute(userId: string, filters: Option<Query>, s: seq<Txn>) returns (r: Result<seq<Txn>>)
      ensures r == SqliteRows(userId, filters, s)
    {
      var sql, params := SqliteStatement(userId, filters);
      if |params| == 2 {
        match params[1].v
        case Text(a) =>
          r := Ok(NewestFirst(FromAccount(userId, a, s)));
        case _ =>
          r := Err(BindingFailure(PythonType(params[1].v)));
      } else {
        r := Ok(NewestFirst(OwnedBy(userId, s)));
      }
    }

    /**
     * Sums the running balance of the entry's account over the rows
     * `get_transactions` returns for it, then inserts the record with its
     * `transaction_balance`. For a type none of the branches recognise,
     * MongoDB inserts the record without a balance while SQLite fails
     * before inserting (the balance variable is never assigned).
     */
    method AddTransaction(userId: string, e: Entry) returns (r: Result<nat>)
      modifies this`transactions
      ensures backend.SqliteBackend? && !Recognised(e.kind) ==>
                r == Err(UnboundLocalError("transaction_balance")) && transactions == old(transactions)
      ensures backend.MongoBackend? || Recognised(e.kind) ==>
                && r == Ok(|old(transactions)|)
                && transactions == old(transactions) + [Stored(userId, e,
                     TransactionBalance(RowsNet(e.account, PrevRows(backend, userId, e.account, old(transactions))), e))]
    {
      var noSearch := (term: string, text: string) => false;
      var rows := GetTransactions(userId, Some(map[MongoFilter.Key.Account := MongoFilter.Text(e.account)]), noSearch);
      ghost var stored := PrevRows(backend, userId, e.account, transactions);
      if backend.MongoBackend? {
        SelectAccount(userId, e.account, transactions, noSearch);
      }
      assert rows == Ok(NewestFirst(stored));
      var prev := PrevBalance(e.account, rows.value);
      RowsNetNewestFirst(e.account, stored);
      var balance := TransactionBalance(prev, e);
      if backend.SqliteBackend? && balance.None? {
        return Err(UnboundLocalError("transaction_balance"));
      }
      transactions := transactions + [Stored(userId, e, balance)];
      r := Ok(|transactions| - 1);
    }

    /**
     * Every account name of the user starts at zero and the user's records
     * are folded in, newest first; the same fold as main.py's, on either
     * store.
     */
    method GetAccountBalances(userId: string) returns (r: Result<Ledger.Balances>)
      ensures r == Ledger.Fold(Ledger.Zeros(AccountNames(accounts, userId)), NewestFirst(OwnedBy(userId, transactions)))
      ensures r.Ok? ==> forall t | t in OwnedBy(userId, transactions) ::
                Ledger.Known((set n | n in AccountNames(accounts, userId)), t)
      ensures (forall t | t in OwnedBy(userId, transactions) ::
                Ledger.Known((set n | n in AccountNames(accounts, userId)), t)) ==> r.Ok?
      ensures r.Err? ==> r.error.KeyError?
      ensures r.Ok? ==> r.value.Keys == set n | n in AccountNames(accounts, userId)
      ensures r.Ok? ==> forall x | x in r.value ::
                r.value[x] == Ledger.AccountNet(x, OwnedBy(userId, transactions))
    {
      var names := AccountNames(accounts, userId);
      var noSearch := (term: string, text: string) => false;
      var rows := GetTransactions(userId, None, noSearch);
      if backend.MongoBackend? {
        SelectUser(userId, transactions, noSearch);
      }
      r := Ledger.ComputeBalances(names, rows.value);
      Ledger.AccountBalancesMeaning(names, OwnedBy(userId, transactions));
    }
  }

  /**
   * `DatabaseFactory.create`: a store of the requested type over the given
   * collections, or the ValueError for an unknown type.
   */
  method Create(dbType: string, connectionString: Option<string>, dbName: Option<string>,
                accounts: seq<Account>, transactions: seq<Txn>) returns (r: Result<Database>)
    ensures r.Err? <==> BackendFor(dbType, connectionString, dbName).Err?
    ensures r.Err? ==> r.error == ValueError("Unsupported database type: " + dbType)
    ensures r.Ok? ==> fresh(r.value) && r.value.backend == BackendFor(dbType, connectionString, dbName).value
    ensures r.Ok? ==> r.value.accounts == accounts && r.value.transactions == transactions
  {
    match BackendFor(dbType, connectionString, dbName)
    case Ok(backend) =>
      var db := new Database(backend, accounts, transactions);
      r := Ok(db);
    case Err(e) =>
      r := Err(e);
  }
}
