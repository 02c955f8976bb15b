/**
 * The ExpenseTracker of main.py: one user's view of the `accounts` and
 * `transactions` collections, which it reads and inserts into directly.
 *
 * Its running balance (`transaction_balance`, stored on every new record)
 * sums two cursors: the records sent from the account, and the transfers
 * whose `to_account` is the account. The lemmas below compare that running
 * balance with the account balance of the ledger fold.
 */
module MongoTracker {
  import opened Records
  import Ledger
  import MongoFilter
  import Spending

  /** The `$in` of the second cursor: the type, exactly as stored, is a transfer type. */
  predicate IsTransferType(kind: string)
  {
    kind == "transferred" || kind == "self_transferred"
  }

  /** The second cursor: user `u`'s transfers whose `to_account` is `x`. */
  function Received(u: string, x: string, s: seq<Txn>): (r: seq<Txn>)
    ensures forall t | t in r :: t in s && t.user == u && t.toAccount == x && IsTransferType(t.kind)
    ensures forall t | t in s && t.user == u && t.toAccount == x && IsTransferType(t.kind) :: t in r
    decreases |s|
  {
    if s == [] then []
    else
      var t := s[|s| - 1];
      Received(u, x, s[..|s| - 1])
      + (if t.user == u && t.toAccount == x && IsTransferType(t.kind) then [t] else [])
  }

  function SignedSum(s: seq<Txn>): int
    decreases |s|
  {
    if s == [] then 0 else SignedSum(s[..|s| - 1]) + Ledger.SignedAmount(s[|s| - 1])
  }

  function AmountSum(s: seq<Txn>): int
    decreases |s|
  {
    if s == [] then 0 else AmountSum(s[..|s| - 1]) + s[|s| - 1].amount
  }

  /** `prev_balance` of account `x` over the stored records `s`. */
  function PrevBalance(u: string, x: string, s: seq<Txn>): int
  {
    SignedSum(FromAccount(u, x, s)) + AmountSum(Received(u, x, s))
  }

  /** `transaction_balance` of a new record, from the previous balance. */
  function StoredBalance(prev: int, kind: string, amount: int, account: string, toAccount: string): int
  {
    if IsCredit(kind) then prev + amount
    else if IsDebit(kind) || IsDebt(kind) then prev - amount
    else if IsTransfer(kind) then (if account == toAccount then prev + amount else prev - amount)
    else prev
  }

  /** The records `create_account` adds for an opening balance: none or one. */
  function OpeningRecords(u: string, name: string, initial: int, today: int, s: seq<Txn>): seq<Txn>
  {
    match Ledger.OpeningTransaction(initial)
    case None => []
    case Some((kind, amount)) =>
      [Txn(u, today, "Opening Balance", "Opening Balance", amount, kind, "Initial Balance",
           name, NO_ACCOUNT, "Self", "Pending",
           Some(StoredBalance(PrevBalance(u, name, s), kind, amount, name, NO_ACCOUNT)))]
  }

  /**
   * The query `get_transactions_by_filter` builds, key by key: `user_id`
   * always, every other key only when its payload field is set.
   */
  method ComposeFilter(userId: string, filters: MongoFilter.FilterPayload) returns (q: MongoFilter.Query)
    ensures q == MongoFilter.UserQuery(userId, filters)
  {
    q := map[MongoFilter.UserId := MongoFilter.Text(userId)];
    ghost var afterUser := q;
    if MongoFilter.TextGiven(filters.searchTerm) {
      q := q[MongoFilter.Search := MongoFilter.SearchAny(filters.searchTerm.value)];
    }
    MongoFilter.Added(afterUser, q, MongoFilter.Search, MongoFilter.Condition(filters, MongoFilter.Search));
    ghost var afterSearch := q;
    var dateFilter := MongoFilter.NO_RANGE;
    if filters.dateFrom.Some? {
      dateFilter := dateFilter.(gte := filters.dateFrom);
    }
    if filters.dateTo.Some? {
      dateFilter := dateFilter.(lte := filters.dateTo);
    }
    assert dateFilter == MongoFilter.Range(filters.dateFrom, filters.dateTo);
    if dateFilter != MongoFilter.NO_RANGE {
      q := q[MongoFilter.Date := MongoFilter.Bounds(dateFilter)];
    }
    MongoFilter.Added(afterSearch, q, MongoFilter.Date, MongoFilter.Condition(filters, MongoFilter.Date));
    ghost var afterDate := q;
    if MongoFilter.ListGiven(filters.types) {
      q := q[MongoFilter.Type := MongoFilter.AnyOf(filters.types.value)];
    }
    MongoFilter.Added(afterDate, q, MongoFilter.Type, MongoFilter.Condition(filters, MongoFilter.Type));
    ghost var afterType := q;
    if MongoFilter.ListGiven(filters.categories) {
      q := q[MongoFilter.Category := MongoFilter.AnyOf(filters.categories.value)];
    }
    MongoFilter.Added(afterType, q, MongoFilter.Category, MongoFilter.Condition(filters, MongoFilter.Category));
    ghost var afterCategory := q;
    if MongoFilter.ListGiven(filters.accounts) {
      q := q[MongoFilter.Key.Account := MongoFilter.AnyOf(filters.accounts.value)];
    }
    MongoFilter.Added(afterCategory, q, MongoFilter.Key.Account, MongoFilter.Condition(filters, MongoFilter.Key.Account));
    ghost var afterAccount := q;
    var amountFilter := MongoFilter.NO_RANGE;
    if filters.minAmount.Some? {
      amountFilter := amountFilter.(gte := filters.minAmount);
    }
    if filters.maxAmount.Some? {
      amountFilter := amountFilter.(lte := filters.maxAmount);
    }
    assert amountFilter == MongoFilter.Range(filters.minAmount, filters.maxAmount);
    if amountFilter != MongoFilter.NO_RANGE {
      q := q[MongoFilter.Amount := MongoFilter.Bounds(amountFilter)];
    }
    MongoFilter.Added(afterAccount, q, MongoFilter.Amount, MongoFilter.Condition(filters, MongoFilter.Amount));
    MongoFilter.UserQueryByKeys(userId, filters);
  }

  class ExpenseTracker {
    const userId: string
    var accounts: seq<Account>
    var transactions: seq<Txn>

    constructor (userId: string, accounts: seq<Account>, transactions: seq<Txn>)
      ensures this.userId == userId
      ensures this.accounts == accounts && this.transactions == transactions
    {
      this.userId := userId;
      this.accounts := accounts;
      this.transactions := transactions;
    }

    /**
     * Inserts the account; a name the user already has is refused with
     * ValueError. A non-zero initial balance is then entered as one opening
     * record through AddTransaction.
     */
    method CreateAccount(name: string, kind: string, initialBalance: int, today: int)
      returns (r: Result<nat>)
      modifies this
      ensures name in AccountNames(old(accounts), userId) ==>
                && r == Err(ValueError("Account with name '" + name + "' already exists."))
                && accounts == old(accounts) && transactions == old(transactions)
      ensures name !in AccountNames(old(accounts), userId) ==>
                && r == Ok(|old(accounts)|)
                && accounts == old(accounts) + [Account(userId, name, kind)]
                && transactions == old(transactions)
                     + OpeningRecords(userId, name, initialBalance, today, old(transactions))
    {
      if name in AccountNames(accounts, userId) {
        return Err(ValueError("Account with name '" + name + "' already exists."));
      }
      NameAdded(accounts, userId, name, kind);
      accounts := accounts + [Account(userId, name, kind)];
      var accountId: nat := |accounts| - 1;
      var opening := Ledger.OpeningTransaction(initialBalance);
      if opening.Some? {
        var (transactionType, amount) := opening.value;
        var added := AddTransaction(today, "Opening Balance", "Opening Balance", amount, transactionType,
                                    "Initial Balance", name, NO_ACCOUNT, "Self", "Pending");
        assert transactions == old(transactions) + OpeningRecords(userId, name, initialBalance, today, old(transactions));
      }
      r := Ok(accountId);
    }

    /**
     * Refuses a missing source account, then a missing destination account
     * (unless it is "None"), with ValueError and before any insert; otherwise
     * inserts the record with its running balance.
     */
    method AddTransaction(date: int, description: string, place: string, amount: int,
                          transactionType: string, category: string, accountName: string,
                          toAccount: string, paidBy: string, status: string)
      returns (r: Result<nat>)
      modifies this`transactions
      ensures accountName !in AccountNames(accounts, userId) ==>
                && r == Err(ValueError("Account '" + accountName + "' does not exist."))
                && transactions == old(transactions)
      ensures accountName in AccountNames(accounts, userId) && toAccount != NO_ACCOUNT
              && toAccount !in AccountNames(accounts, userId) ==>
                && r == Err(ValueError("Account '" + toAccount + "' does not exist."))
                && transactions == old(transactions)
      ensures accountName in AccountNames(accounts, userId)
              && (toAccount == NO_ACCOUNT || toAccount in AccountNames(accounts, userId)) ==>
                && r == Ok(|old(transactions)|)
                && transactions == old(transactions) + [Txn(userId, date, description, place, amount,
                     transactionType, category, accountName, toAccount, paidBy, status,
                     Some(StoredBalance(PrevBalance(userId, accountName, old(transactions)),
                                        transactionType, amount, accountName, toAccount)))]
    {
      var names := AccountNames(accounts, userId);
      if accountName !in names {
        return Err(ValueError("Account '" + accountName + "' does not exist."));
      }
      if toAccount != NO_ACCOUNT && toAccount !in names {
        return Err(ValueError("Account '" + toAccount + "' does not exist."));
      }
      var prev := ComputePrevBalance(accountName);
      var balance := StoredBalance(prev, transactionType, amount, accountName, toAccount);
      transactions := transactions + [Txn(userId, date, description, place, amount, transactionType,
                                          category, accountName, toAccount, paidBy, status, Some(balance))];
      r := Ok(|transactions| - 1);
    }

    /** The two cursor loops of `add_transaction`, one accumulator across both. */
    method ComputePrevBalance(accountName: string) returns (prev: int)
      ensures prev == PrevBalance(userId, accountName, transactions)
    {
      prev := AddSent(0, FromAccount(userId, accountName, transactions));
      prev := AddReceived(prev, Received(userId, accountName, transactions));
    }

    /**
     * One page of the user's records that satisfy the payload, newest first:
     * `(page - 1) * limit` records are skipped and at most `limit` returned.
     */
    method GetTransactionsByFilter(filters: MongoFilter.FilterPayload, rx: (string, string) -> bool)
      returns (r: Result<seq<Txn>>)
      ensures r == MongoFilter.Window(
                     NewestFirst(MongoFilter.Select(MongoFilter.UserQuery(userId, filters), transactions, rx)),
                     MongoFilter.Skip(filters.page, filters.limit), filters.limit)
      ensures r.Err? <==> (filters.page - 1) * filters.limit < 0
      ensures r.Ok? ==> forall t | t in r.value ::
                t in transactions && t.user == userId && MongoFilter.Satisfies(filters, t, rx)
      ensures r.Ok? && filters.limit > 0 ==> |r.value| <= filters.limit
    {
      var q := ComposeFilter(userId, filters);
      var skip := (filters.page - 1) * filters.limit;
      var rows := NewestFirst(MongoFilter.Select(q, transactions, rx));
      r := MongoFilter.Window(rows, skip, filters.limit);
      FilterPageMeaning(userId, filters, transactions, rx);
    }

    /**
     * Every account name of the user starts at zero and the user's records
     * are folded in, newest first. On success each balance is what the
     * records make up for that account; the fold fails with KeyError exactly
     * when a record touches an account the user does not have.
     */
    method GetAllAccountBalances() returns (r: Result<Ledger.Balances>)
      ensures r == Ledger.Fold(Ledger.Zeros(AccountNames(accounts, userId)),
                               NewestFirst(OwnedBy(userId, transactions)))
      ensures r.Ok? ==> forall t | t in OwnedBy(userId, transactions) ::
                Ledger.Known((set n | n in AccountNames(accounts, userId)), t)
      ensures (forall t | t in OwnedBy(userId, transactions) ::
                Ledger.Known((set n | n in AccountNames(accounts, userId)), t)) ==> r.Ok?
      ensures r.Err? ==> r.error.KeyError?
      ensures r.Ok? ==> r.value.Keys == set n | n in AccountNames(accounts, userId)
      ensures r.Ok? ==> forall x | x in r.value ::
                r.value[x] == Ledger.AccountNet(x, OwnedBy(userId, transactions))
    {
      var names := AccountNames(accounts, userId);
      var mine := OwnedBy(userId, transactions);
      r := Ledger.ComputeBalances(names, NewestFirst(mine));
      Ledger.AccountBalancesMeaning(names, mine);
    }

    /** The spending report over all of the user's records. */
    method GetSpendingByCategory(startDate: Option<int>, endDate: Option<int>)
      returns (r: map<string, int>)
      ensures r == Spending.SpendingByCategory(NewestFirst(OwnedBy(userId, transactions)), startDate, endDate)
    {
      r := Spending.SpendingByCategory(NewestFirst(OwnedBy(userId, transactions)), startDate, endDate);
    }
  }

  /** The loop over the first cursor: each record's amount, signed by its lower-cased type. */
  method AddSent(start: int, outgoing: seq<Txn>) returns (prev: int)
    ensures prev == start + SignedSum(outgoing)
  {
    prev := start;
    var i := 0;
    while i < |outgoing|
      invariant i <= |outgoing|
      invariant prev == start + SignedSum(outgoing[..i])
    {
      var t := outgoing[i];
      var kind := Lower(t.kind);
      SignedAmountOfKind(t, kind);
      if kind == "credit" {
        prev := prev + t.amount;
      } else if kind == "debit" || kind == "debt_incurred" || kind == "transferred"
                || kind == "self_transferred" {
        prev := prev - t.amount;
      }
      SignedSumPrefix(outgoing, i);
      i := i + 1;
    }
    assert outgoing[..i] == outgoing;
  }

  /** The loop over the second cursor: each incoming transfer's amount is added. */
  method AddReceived(start: int, incoming: seq<Txn>) returns (prev: int)
    ensures prev == start + AmountSum(incoming)
  {
    prev := start;
    var j := 0;
    while j < |incoming|
      invariant j <= |incoming|
      invariant prev == start + AmountSum(incoming[..j])
    {
      prev := prev + incoming[j].amount;
      assert incoming[..j + 1][..j] == incoming[..j];
      j := j + 1;
    }
    assert incoming[..j] == incoming;
  }

  /** Every record of a filter page is the user's, stored, and satisfies the payload. */
  lemma FilterPageMeaning(u: string, f: MongoFilter.FilterPayload, s: seq<Txn>, rx: (string, string) -> bool)
    ensures var r := MongoFilter.Window(NewestFirst(MongoFilter.Select(MongoFilter.UserQuery(u, f), s, rx)),
                                        MongoFilter.Skip(f.page, f.limit), f.limit);
            r.Ok? ==> forall t | t in r.value :: t in s && t.user == u && MongoFilter.Satisfies(f, t, rx)
  {
    var selected := MongoFilter.Select(MongoFilter.UserQuery(u, f), s, rx);
    var rows := NewestFirst(selected);
    MongoFilter.WindowMembers(rows, MongoFilter.Skip(f.page, f.limit), f.limit);
    NewestFirstMembers(selected);
    forall t | t in selected ensures t in s && t.user == u && MongoFilter.Satisfies(f, t, rx) {
      SelectedMeaning(u, f, s, rx, t);
    }
  }

  lemma SelectedMeaning(u: string, f: MongoFilter.FilterPayload, s: seq<Txn>, rx: (string, string) -> bool, t: Txn)
    requires t in MongoFilter.Select(MongoFilter.UserQuery(u, f), s, rx)
    ensures t in s && t.user == u && MongoFilter.Satisfies(f, t, rx)
  {
    MongoFilter.UserQueryMeaning(u, f, t, rx);
  }

  lemma CursorsAppend(u: string, x: string, s: seq<Txn>, t: Txn)
    ensures FromAccount(u, x, s + [t]) == FromAccount(u, x, s) + (if t.user == u && t.account == x then [t] else [])
    ensures Received(u, x, s + [t])
            == Received(u, x, s) + (if t.user == u && t.toAccount == x && IsTransferType(t.kind) then [t] else [])
  {
    assert (s + [t])[..|s|] == s;
  }

  lemma NameAdded(accounts: seq<Account>, u: string, name: string, kind: string)
    ensures name in AccountNames(accounts + [Account(u, name, kind)], u)
  {
  }

  /** The signed amount, read off the lower-cased type as the first cursor's loop does. */
  lemma SignedAmountOfKind(t: Txn, kind: string)
    requires kind == Lower(t.kind)
    ensures Ledger.SignedAmount(t)
            == if kind == "credit" then t.amount
               else if kind == "debit" || kind == "debt_incurred" || kind == "transferred"
                       || kind == "self_transferred" then -t.amount
               else 0
  {
  }

  lemma SignedSumPrefix(s: seq<Txn>, i: nat)
    requires i < |s|
    ensures SignedSum(s[..i + 1]) == SignedSum(s[..i]) + Ledger.SignedAmount(s[i])
  {
    assert s[..i + 1][..i] == s[..i];
  }

  /** What one more stored record adds to the previous balance of `x`. */
  lemma PrevBalanceStep(u: string, x: string, s: seq<Txn>, t: Txn)
    ensures PrevBalance(u, x, s + [t]) == PrevBalance(u, x, s)
              + (if t.user == u && t.account == x then Ledger.SignedAmount(t) else 0)
              + (if t.user == u && t.toAccount == x && IsTransferType(t.kind) then t.amount else 0)
  {
    CursorsAppend(u, x, s, t);
    if t.user == u && t.account == x {
      var sent := FromAccount(u, x, s) + [t];
      assert sent[..|sent| - 1] == FromAccount(u, x, s);
      assert SignedSum(sent) == SignedSum(FromAccount(u, x, s)) + Ledger.SignedAmount(t);
    } else {
      assert FromAccount(u, x, s + [t]) == FromAccount(u, x, s) + [] == FromAccount(u, x, s);
    }
    if t.user == u && t.toAccount == x && IsTransferType(t.kind) {
      var received := Received(u, x, s) + [t];
      assert received[..|received| - 1] == Received(u, x, s);
      assert AmountSum(received) == AmountSum(Received(u, x, s)) + t.amount;
    } else {
      assert Received(u, x, s + [t]) == Received(u, x, s) + [] == Received(u, x, s);
    }
  }

  /**
   * When the transfer types are stored in lower case, the running balance
   * main.py computes for account `x` is the balance the ledger fold gives `x`
   * over the same user's records.
   */
  lemma {:induction false} PrevBalanceMatchesLedger(u: string, x: string, s: seq<Txn>)
    requires x != NO_ACCOUNT
    requires forall t | t in s && t.user == u && t.toAccount == x && IsTransfer(t.kind) :: Lower(t.kind) == t.kind
    ensures PrevBalance(u, x, s) == Ledger.AccountNet(x, OwnedBy(u, s))
    decreases |s|
  {
    if s != [] {
      var p, t := s[..|s| - 1], s[|s| - 1];
      assert s == p + [t];
      assert forall r | r in p :: r in s;
      PrevBalanceMatchesLedger(u, x, p);
      PrevLedgerStep(u, x, p, t);
    }
  }

  /** One more record changes the previous balance and the ledger balance alike. */
  lemma PrevLedgerStep(u: string, x: string, p: seq<Txn>, t: Txn)
    requires x != NO_ACCOUNT
    requires t.user == u && t.toAccount == x && IsTransfer(t.kind) ==> Lower(t.kind) == t.kind
    ensures PrevBalance(u, x, p + [t]) - PrevBalance(u, x, p)
            == Ledger.AccountNet(x, OwnedBy(u, p + [t])) - Ledger.AccountNet(x, OwnedBy(u, p))
  {
    PrevBalanceStep(u, x, p, t);
    Ledger.AccountNetOwnedStep(u, x, p, t);
    if t.user == u {
      InboundIsTransferType(x, t);
    }
  }

  /** For a type stored in lower case, the second cursor's exact match is the ledger's transfer test. */
  lemma InboundIsTransferType(x: string, t: Txn)
    requires x != NO_ACCOUNT
    requires t.toAccount == x && IsTransfer(t.kind) ==> Lower(t.kind) == t.kind
    ensures Ledger.Inbound(x, t) <==> t.toAccount == x && IsTransferType(t.kind)
  {
    CanonicalKinds();
  }

  /**
   * Except for a transfer from the account to itself, the balance stored on
   * a new record is the previous balance the next record of the same account
   * will start from.
   */
  lemma StoredBalanceIsNextPrev(u: string, x: string, s: seq<Txn>, t: Txn)
    requires t.user == u && t.account == x
    requires !(IsTransfer(t.kind) && t.toAccount == x)
    ensures StoredBalance(PrevBalance(u, x, s), t.kind, t.amount, x, t.toAccount) == PrevBalance(u, x, s + [t])
  {
    PrevBalanceStep(u, x, s, t);
    StoredBalanceStep(PrevBalance(u, x, s), PrevBalance(u, x, s + [t]), x, t);
  }

  lemma StoredBalanceStep(prev: int, next: int, x: string, t: Txn)
    requires !(IsTransfer(t.kind) && t.toAccount == x)
    requires next == prev + Ledger.SignedAmount(t) + (if t.toAccount == x && IsTransferType(t.kind) then t.amount else 0)
    ensures StoredBalance(prev, t.kind, t.amount, x, t.toAccount) == next
  {
    CanonicalKinds();
    assert !(t.toAccount == x && IsTransferType(t.kind));
  }

  /**
   * A transfer from the account to itself adds nothing to later previous
   * balances (it is subtracted by the first cursor and added back by the
   * second), yet the balance stored on it is the previous balance plus its
   * amount.
   */
  lemma SelfTransferStoredBalance(u: string, x: string, s: seq<Txn>, t: Txn)
    requires t.user == u && t.account == x && t.toAccount == x && IsTransferType(t.kind)
    ensures PrevBalance(u, x, s + [t]) == PrevBalance(u, x, s)
    ensures StoredBalance(PrevBalance(u, x, s), t.kind, t.amount, x, t.toAccount)
            == PrevBalance(u, x, s + [t]) + t.amount
  {
    PrevBalanceStep(u, x, s, t);
    SelfTransferStep(PrevBalance(u, x, s), PrevBalance(u, x, s + [t]), x, t);
  }

  lemma SelfTransferStep(prev: int, next: int, x: string, t: Txn)
    requires t.account == x && t.toAccount == x && IsTransferType(t.kind)
    requires next == prev + Ledger.SignedAmount(t) + t.amount
    ensures next == prev
    ensures StoredBalance(prev, t.kind, t.amount, x, t.toAccount) == next + t.amount
  {
    CanonicalKinds();
  }

  /** An account's opening record, stored on an account with no records, carries the initial balance. */
  lemma OpeningRecordBalance(u: string, name: string, initial: int, today: int, s: seq<Txn>)
    requires initial != 0
    requires FromAccount(u, name, s) == [] && Received(u, name, s) == []
    ensures |OpeningRecords(u, name, initial, today, s)| == 1
    ensures OpeningRecords(u, name, initial, today, s)[0].balance == Some(initial)
  {
    CanonicalKinds();
  }
}
