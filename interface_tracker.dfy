/**
 * The ExpenseTracker of main1.py: the operations of main.py's tracker, but
 * every read and insert goes through a DataAccess store, and an error of
 * the store comes back as ValueError carrying the error's text.
 */
module InterfaceTracker {
  import opened Records
  import Ledger
  import MongoFilter
  import Spending
  import DataAccess

  /**
   * `transactions[:limit] if limit else transactions`: no limit or a zero
   * limit keeps everything; a positive limit keeps at most that many
   * records from the front; a negative one drops that many from the back.
   */
  function LimitSlice(s: seq<Txn>, limit: Option<int>): (r: seq<Txn>)
    ensures |r| <= |s| && r == s[..|r|]
    ensures limit.None? || limit.value == 0 ==> r == s
    ensures limit.Some? && limit.value > 0 ==> |r| == if limit.value < |s| then limit.value else |s|
    ensures limit.Some? && limit.value < 0 ==> |r| == if |s| + limit.value > 0 then |s| + limit.value else 0
  {
    if limit.None? || limit.value == 0 then s
    else if limit.value > 0 then (if limit.value < |s| then s[..limit.value] else s)
    else if |s| + limit.value > 0 then s[..|s| + limit.value] else []
  }

  /** A positive limit keeps what a cursor limited to the same number returns. */
  lemma LimitSliceIsCursorLimit(s: seq<Txn>, n: int)
    requires n > 0
    ensures MongoFilter.Window(s, 0, n) == Ok(LimitSlice(s, Some(n)))
  {
    var w := MongoFilter.Window(s, 0, n).value;
    var r := LimitSlice(s, Some(n));
    assert |w| == |r|;
    forall i | 0 <= i < |w| ensures w[i] == r[i] {
      assert r[i] == s[i];
    }
  }

  /**
   * A negative limit is where the slice and a cursor part ways: the cursor
   * returns the first `-n` records, the slice everything but the last `-n`.
   */
  lemma NegativeLimitDropsTail(s: seq<Txn>, n: int)
    requires n < 0 && -n <= |s|
    ensures LimitSlice(s, Some(n)) + s[|s| + n..] == s
    ensures MongoFilter.Window(s, 0, n) == Ok(s[..-n])
  {
    var w := MongoFilter.Window(s, 0, n).value;
    assert |w| == -n;
    forall i | 0 <= i < |w| ensures w[i] == s[..-n][i] {
    }
    assert w == s[..-n];
    assert s[..|s| + n] + s[|s| + n..] == s;
  }

  /**
   * The filter `get_transactions_by_filter` builds, key by key: every key
   * only when its payload field is set, and no `user_id`, page or limit.
   */
  method ComposeFilter(filters: MongoFilter.FilterPayload) returns (q: MongoFilter.Query)
    ensures q == MongoFilter.PayloadQuery(filters)
  {
    q := map[];
    ghost var start := q;
    if MongoFilter.TextGiven(filters.searchTerm) {
      q := q[MongoFilter.Search := MongoFilter.SearchAny(filters.searchTerm.value)];
    }
    MongoFilter.Added(start, q, MongoFilter.Search, MongoFilter.Condition(filters, MongoFilter.Search));
    ghost var afterSearch := q;
    var dateFilter := MongoFilter.NO_RANGE;
    if filters.dateFrom.Some? {
      dateFilter := dateFilter.(gte := filters.dateFrom);
    }
    if filters.dateTo.Some? {
      dateFilter := dateFilter.(lte := filters.dateTo);
    }
    assert dateFilter == MongoFilter.Range(filters.dateFrom, filters.dateTo);
    if dateFilter != MongoFilter.NO_RANGE {
      q := q[MongoFilter.Date := MongoFilter.Bounds(dateFilter)];
    }
    MongoFilter.Added(afterSearch, q, MongoFilter.Date, MongoFilter.Condition(filters, MongoFilter.Date));
    ghost var afterDate := q;
    if MongoFilter.ListGiven(filters.types) {
      q := q[MongoFilter.Type := MongoFilter.AnyOf(filters.types.value)];
    }
    MongoFilter.Added(afterDate, q, MongoFilter.Type, MongoFilter.Condition(filters, MongoFilter.Type));
    ghost var afterType := q;
    if MongoFilter.ListGiven(filters.categories) {
      q := q[MongoFilter.Category := MongoFilter.AnyOf(filters.categories.value)];
    }
    MongoFilter.Added(afterType, q, MongoFilter.Category, MongoFilter.Condition(filters, MongoFilter.Category));
    ghost var afterCategory := q;
    if MongoFilter.ListGiven(filters.accounts) {
      q := q[MongoFilter.Key.Account := MongoFilter.AnyOf(filters.accounts.value)];
    }
    MongoFilter.Added(afterCategory, q, MongoFilter.Key.Account, MongoFilter.Condition(filters, MongoFilter.Key.Account));
    ghost var afterAccount := q;
    var amountFilter := MongoFilter.NO_RANGE;
    if filters.minAmount.Some? {
      amountFilter := amountFilter.(gte := filters.minAmount);
    }
    if filters.maxAmount.Some? {
      amountFilter := amountFilter.(lte := filters.maxAmount);
    }
    assert amountFilter == MongoFilter.Range(filters.minAmount, filters.maxAmount);
    if amountFilter != MongoFilter.NO_RANGE {
      q := q[MongoFilter.Amount := MongoFilter.Bounds(amountFilter)];
    }
    MongoFilter.Added(afterAccount, q, MongoFilter.Amount, MongoFilter.Condition(filters, MongoFilter.Amount));
    MongoFilter.PayloadByKeys(filters);
  }

  /** The record the store inserts for entry `e` of user `u` over the stored records `s`. */
  function Inserted(backend: DataAccess.Backend, u: string, e: DataAccess.Entry, s: seq<Txn>): Txn
  {
    DataAccess.Stored(u, e, DataAccess.TransactionBalance(
      DataAccess.RowsNet(e.account, DataAccess.PrevRows(backend, u, e.account, s)), e))
  }

  /** The entry `create_account` passes on for an opening balance, with the default destination. */
  function OpeningEntry(name: string, kind: string, amount: int, today: int): DataAccess.Entry
  {
    DataAccess.Entry(today, "Opening Balance", "Opening Balance", amount, kind, "Initial Balance",
                     name, NO_ACCOUNT, "Self", "Pending")
  }

  /** The records `create_account` adds for an opening balance: none or one. */
  function OpeningRecords(backend: DataAccess.Backend, u: string, name: string, initial: int, today: int,
                          s: seq<Txn>): seq<Txn>
  {
    match Ledger.OpeningTransaction(initial)
    case None => []
    case Some((kind, amount)) => [Inserted(backend, u, OpeningEntry(name, kind, amount, today), s)]
  }

  class ExpenseTracker {
    const db: DataAccess.Database
    const userId: string

    constructor (db: DataAccess.Database, userId: string)
      ensures this.db == db && this.userId == userId
    {
      this.db := db;
      this.userId := userId;
    }

    /**
     * Creates the account through the store, then enters a non-zero initial
     * balance as one opening record; the store's refusal of a duplicate
     * name comes back as ValueError with the same text.
     */
    method CreateAccount(name: string, kind: string, initialBalance: int, today: int)
      returns (r: Result<nat>)
      modifies db`accounts, db`transactions
      ensures name in AccountNames(old(db.accounts), userId) ==>
                && r == Err(ValueError("Account with name '" + name + "' already exists."))
                && db.accounts == old(db.accounts) && db.transactions == old(db.transactions)
      ensures name !in AccountNames(old(db.accounts), userId) ==>
                && r == Ok(|old(db.accounts)|)
                && db.accounts == old(db.accounts) + [Account(userId, name, kind)]
                && db.transactions == old(db.transactions)
                     + OpeningRecords(db.backend, userId, name, initialBalance, today, old(db.transactions))
    {
      var created := db.CreateAccount(userId, name, kind);
      if created.Err? {
        return Err(ValueError(Message(created.error)));
      }
      var opening := Ledger.OpeningTransaction(initialBalance);
      if opening.Some? {
        var (transactionType, amount) := opening.value;
        CanonicalKinds();
        var added := AddTransaction(today, "Opening Balance", "Opening Balance", amount, transactionType,
                                    "Initial Balance", name, NO_ACCOUNT, "Self", "Pending");
      }
      r := created;
    }

    /**
     * Passes the entry to the store; the SQLite store's failure on an
     * unrecognised type comes back as ValueError with the same text.
     */
    method AddTransaction(date: int, description: string, place: string, amount: int,
                          transactionType: string, category: string, accountName: string,
                          toAccount: string, paidBy: string, status: string)
      returns (r: Result<nat>)
      modifies db`transactions
      ensures db.backend.SqliteBackend? && !Recognised(transactionType) ==>
                r == Err(ValueError(Message(UnboundLocalError("transaction_balance")))) && db.transactions == old(db.transactions)
      ensures db.backend.MongoBackend? || Recognised(transactionType) ==>
                && r == Ok(|old(db.transactions)|)
                && db.transactions == old(db.transactions) + [Inserted(db.backend, userId,
                     DataAccess.Entry(date, description, place, amount, transactionType, category,
                                      accountName, toAccount, paidBy, status),
                     old(db.transactions))]
    {
      var e := DataAccess.Entry(date, description, place, amount, transactionType, category,
                                accountName, toAccount, paidBy, status);
      r := db.AddTransaction(userId, e);
      if r.Err? {
        r := Err(ValueError(Message(r.error)));
      }
    }

    /** All of the user's records, newest first, cut by `limit`. */
    method GetTransactions(limit: Option<int>) returns (r: seq<Txn>)
      ensures r == LimitSlice(NewestFirst(OwnedBy(userId, db.transactions)), limit)
    {
      var noSearch := (term: string, text: string) => false;
      var rows := db.GetTransactions(userId, None, noSearch);
      if db.backend.MongoBackend? {
        DataAccess.SelectUser(userId, db.transactions, noSearch);
      }
      r := LimitSlice(rows.value, limit);
    }

    /**
     * The user's records that the store finds for the payload's filter,
     * newest first and not paged. MongoDB applies every condition; SQLite
     * reads only the account condition, whose `{"$in": accounts}` document
     * it cannot bind.
     */
    method GetTransactionsByFilter(filters: MongoFilter.FilterPayload, rx: (string, string) -> bool)
      returns (r: Result<seq<Txn>>)
      ensures r == DataAccess.Rows(db.backend, userId, Some(MongoFilter.PayloadQuery(filters)), db.transactions, rx)
      ensures db.backend.MongoBackend? ==>
                r == Ok(NewestFirst(MongoFilter.Select(MongoFilter.UserQuery(userId, filters), db.transactions, rx)))
      ensures db.backend.SqliteBackend? ==> (r.Err? <==> MongoFilter.ListGiven(filters.accounts))
      ensures db.backend.SqliteBackend? && MongoFilter.ListGiven(filters.accounts) ==>
                r == Err(DataAccess.BindingFailure("dict"))
      ensures db.backend.SqliteBackend? && !MongoFilter.ListGiven(filters.accounts) ==>
                r == Ok(NewestFirst(OwnedBy(userId, db.transactions)))
    {
      var q := ComposeFilter(filters);
      r := db.GetTransactions(userId, Some(q), rx);
      FilterQueryIsUserQuery(userId, filters);
      SqliteReadsOnlyAccounts(userId, filters, db.transactions);
    }

    /** The store's account balances of the user. */
    method GetAllAccountBalances() returns (r: Result<Ledger.Balances>)
      ensures r == Ledger.Fold(Ledger.Zeros(AccountNames(db.accounts, userId)),
                               NewestFirst(OwnedBy(userId, db.transactions)))
      ensures r.Err? ==> r.error.KeyError?
      ensures r.Ok? ==> r.value.Keys == set n | n in AccountNames(db.accounts, userId)
      ensures r.Ok? ==> forall x | x in r.value ::
                r.value[x] == Ledger.AccountNet(x, OwnedBy(userId, db.transactions))
    {
      r := db.GetAccountBalances(userId);
    }

    /** The spending report over all of the user's records. */
    method GetSpendingByCategory(startDate: Option<int>, endDate: Option<int>) returns (r: map<string, int>)
      ensures r == Spending.SpendingByCategory(NewestFirst(OwnedBy(userId, db.transactions)), startDate, endDate)
    {
      var transactions := GetTransactions(None);
      r := Spending.SpendingByCategory(transactions, startDate, endDate);
    }
  }

  /** On MongoDB the store's `{"user_id": u}` updated with the payload's filter is main.py's query. */
  lemma FilterQueryIsUserQuery(u: string, f: MongoFilter.FilterPayload)
    ensures DataAccess.MongoQuery(u, Some(MongoFilter.PayloadQuery(f))) == MongoFilter.UserQuery(u, f)
  {
    var p := MongoFilter.PayloadQuery(f);
    var q := DataAccess.MongoQuery(u, Some(p));
    var expected := MongoFilter.UserQuery(u, f);
    assert q.Keys == expected.Keys;
    forall k | k in q ensures q[k] == expected[k] {
    }
  }

  /**
   * The SQLite store ignores every condition of the payload but the
   * accounts, and fails to bind the `{"$in": accounts}` document, a dict,
   * whenever accounts are given.
   */
  lemma SqliteReadsOnlyAccounts(u: string, f: MongoFilter.FilterPayload, s: seq<Txn>)
    ensures MongoFilter.ListGiven(f.accounts) ==>
              DataAccess.SqliteRows(u, Some(MongoFilter.PayloadQuery(f)), s)
              == Err(DataAccess.BindingFailure("dict"))
    ensures !MongoFilter.ListGiven(f.accounts) ==>
              DataAccess.SqliteRows(u, Some(MongoFilter.PayloadQuery(f)), s) == Ok(NewestFirst(OwnedBy(u, s)))
  {
    var q := MongoFilter.PayloadQuery(f);
    if MongoFilter.ListGiven(f.accounts) {
      assert q[MongoFilter.Key.Account] == MongoFilter.AnyOf(f.accounts.value) by {
        assert MongoFilter.Condition(f, MongoFilter.Key.Account) == Some(MongoFilter.AnyOf(f.accounts.value));
      }
    } else {
      DataAccess.SqliteIgnoresOtherFilters(u, q, s);
    }
  }

  /**
   * On MongoDB the unpaged filter result is main.py's page for the same
   * payload taken as page 1 with no limit.
   */
  lemma FilterIsUnlimitedFirstPage(u: string, f: MongoFilter.FilterPayload, s: seq<Txn>, rx: (string, string) -> bool)
    ensures var g := f.(page := 1, limit := 0);
            DataAccess.Rows(DataAccess.MongoBackend(None, None), u, Some(MongoFilter.PayloadQuery(f)), s, rx)
            == MongoFilter.Window(NewestFirst(MongoFilter.Select(MongoFilter.UserQuery(u, g), s, rx)),
                                  MongoFilter.Skip(g.page, g.limit), g.limit)
  {
    var g := f.(page := 1, limit := 0);
    FilterQueryIsUserQuery(u, f);
    assert MongoFilter.PayloadQuery(g) == MongoFilter.PayloadQuery(f) by {
      forall k ensures MongoFilter.Condition(g, k) == MongoFilter.Condition(f, k) {
      }
    }
    var rows := NewestFirst(MongoFilter.Select(MongoFilter.UserQuery(u, f), s, rx));
    var w := MongoFilter.Window(rows, 0, 0).value;
    assert |w| == |rows|;
    forall i | 0 <= i < |w| ensures w[i] == rows[i] {
    }
  }

  /** The opening record of a fresh account carries the initial balance as its amount's sign says. */
  lemma OpeningRecordMeaning(backend: DataAccess.Backend, u: string, name: string, initial: int, today: int,
                             s: seq<Txn>)
    ensures |OpeningRecords(backend, u, name, initial, today, s)| == if initial == 0 then 0 else 1
    ensures initial != 0 ==>
              var t := OpeningRecords(backend, u, name, initial, today, s)[0];
              && t.user == u && t.account == name && t.toAccount == NO_ACCOUNT
              && t.kind == (if initial > 0 then "credit" else "debit")
              && t.amount == (if initial > 0 then initial else -initial)
              && t.description == "Opening Balance" && t.category == "Initial Balance"
  {
  }
}
