/**
 * The values every part of the expense-tracker backend shares: stored
 * transaction and account records, the exceptions the backend raises, and the
 * lower-casing it applies to a record's `type` before comparing it.
 *
 * Amounts and balances are integers (minor units) and dates are day numbers.
 * A collection is a sequence in insertion order, which is also the order of
 * `created_at`.
 */
module Records {

  datatype Option<+T> = None | Some(value: T)

  /** The exceptions the backend raises, by Python class. */
  datatype Error =
    | ValueError(msg: string)
    | KeyError(key: string)
    | UnboundLocalError(name: string)
      /** sqlite3 refusing to bind a parameter value it has no type for */
    | BindingError(msg: string)

  datatype Result<+T> = Ok(value: T) | Err(error: Error)

  /** `str(e)`: the text a wrapping `ValueError(str(e))` carries. */
  function Message(e: Error): string
  {
    match e
    case ValueError(m) => m
    case KeyError(k) => "'" + k + "'"
    case UnboundLocalError(n) =>
      "cannot access local variable '" + n + "' where it is not associated with a value"
    case BindingError(m) => m
  }

  /** The `to_account` value that means "no destination account". */
  const NO_ACCOUNT: string := "None"

  /**
   * A stored transaction. `kind` is the record's `type` field as it was
   * entered; `balance` is `transaction_balance`, `None` when the record has
   * no such key.
   */
  datatype Txn = Txn(
    user: string,
    date: int,
    description: string,
    place: string,
    amount: int,
    kind: string,
    category: string,
    account: string,
    toAccount: string,
    paidBy: string,
    status: string,
    balance: Option<int>)

  /** A stored account; `kind` is its `type` ("personal" or "friend"). */
  datatype Account = Account(user: string, name: string, kind: string)

  function LowerChar(c: char): char
  {
    if 'A' <= c <= 'Z' then (c as int + 32) as char else c
  }

  /** `str.lower()` on ASCII text. */
  function Lower(s: string): (r: string)
    ensures |r| == |s|
    ensures forall i :: 0 <= i < |s| ==> !('A' <= r[i] <= 'Z')
    ensures forall i :: 0 <= i < |s| && !('A' <= s[i] <= 'Z') ==> r[i] == s[i]
    ensures forall i :: 0 <= i < |s| && 'A' <= s[i] <= 'Z' ==> r[i] == (s[i] as int + 32) as char
  {
    seq(|s|, i requires 0 <= i < |s| => LowerChar(s[i]))
  }

  /** The type names the backend itself writes are already in lower case. */
  lemma CanonicalKinds()
    ensures Lower("credit") == "credit" && Lower("debit") == "debit"
    ensures Lower("debt_incurred") == "debt_incurred"
    ensures Lower("transferred") == "transferred" && Lower("self_transferred") == "self_transferred"
  {
  }

  predicate IsCredit(kind: string) { Lower(kind) == "credit" }
  predicate IsDebit(kind: string) { Lower(kind) == "debit" }
  predicate IsDebt(kind: string) { Lower(kind) == "debt_incurred" }
  predicate IsTransfer(kind: string)
  {
    Lower(kind) == "transferred" || Lower(kind) == "self_transferred"
  }

  /** A type the balance rules act on; every other type changes no balance. */
  predicate Recognised(kind: string)
  {
    IsCredit(kind) || IsDebit(kind) || IsDebt(kind) || IsTransfer(kind)
  }

  /** The records of user `u`, in stored order. */
  function OwnedBy(u: string, s: seq<Txn>): (r: seq<Txn>)
    ensures forall t | t in r :: t in s && t.user == u
    ensures forall t | t in s && t.user == u :: t in r
    decreases |s|
  {
    if s == [] then []
    else
      var t := s[|s| - 1];
      OwnedBy(u, s[..|s| - 1]) + (if t.user == u then [t] else [])
  }

  /** The records of user `u` whose `account` is `x`, in stored order. */
  function FromAccount(u: string, x: string, s: seq<Txn>): (r: seq<Txn>)
    ensures forall t | t in r :: t in s && t.user == u && t.account == x
    ensures forall t | t in s && t.user == u && t.account == x :: t in r
    decreases |s|
  {
    if s == [] then []
    else
      var t := s[|s| - 1];
      FromAccount(u, x, s[..|s| - 1]) + (if t.user == u && t.account == x then [t] else [])
  }

  /** One more stored record extends the user's and the account's records by itself or by nothing. */
  lemma FiltersAppend(u: string, x: string, s: seq<Txn>, t: Txn)
    ensures OwnedBy(u, s + [t]) == OwnedBy(u, s) + (if t.user == u then [t] else [])
    ensures FromAccount(u, x, s + [t]) == FromAccount(u, x, s) + (if t.user == u && t.account == x then [t] else [])
  {
    assert (s + [t])[..|s|] == s;
  }

  /** A query result sorted by `created_at` descending: newest record first. */
  function NewestFirst(s: seq<Txn>): (r: seq<Txn>)
    ensures |r| == |s|
    ensures forall i :: 0 <= i < |s| ==> r[i] == s[|s| - 1 - i]
    decreases |s|
  {
    if s == [] then [] else [s[|s| - 1]] + NewestFirst(s[..|s| - 1])
  }

  /** Sorting newest first brings in no record of its own. */
  lemma NewestFirstMembers(s: seq<Txn>)
    ensures forall t | t in NewestFirst(s) :: t in s
  {
    forall t | t in NewestFirst(s) ensures t in s {
      var i :| 0 <= i < |s| && NewestFirst(s)[i] == t;
      assert t == s[|s| - 1 - i];
    }
  }

  /** A property of every record survives sorting newest first, both ways. */
  lemma AllNewestFirst(s: seq<Txn>, p: Txn -> bool)
    ensures (forall t | t in s :: p(t)) ==> (forall i :: 0 <= i < |s| ==> p(NewestFirst(s)[i]))
    ensures (forall i :: 0 <= i < |s| ==> p(NewestFirst(s)[i])) ==> (forall t | t in s :: p(t))
  {
    var r := NewestFirst(s);
    if forall i :: 0 <= i < |s| ==> p(r[i]) {
      forall t | t in s ensures p(t) {
        var k :| 0 <= k < |s| && s[k] == t;
        assert r[|s| - 1 - k] == t;
      }
    }
    if forall t | t in s :: p(t) {
      forall i | 0 <= i < |s| ensures p(r[i]) {
        assert s[|s| - 1 - i] in s;
      }
    }
  }

  /** The names of user `u`'s accounts, in stored order. */
  function AccountNames(accounts: seq<Account>, u: string): (r: seq<string>)
    ensures forall n | n in r :: exists a | a in accounts :: a.user == u && a.name == n
    ensures forall a | a in accounts && a.user == u :: a.name in r
    decreases |accounts|
  {
    if accounts == [] then []
    else
      var a := accounts[|accounts| - 1];
      AccountNames(accounts[..|accounts| - 1], u) + (if a.user == u then [a.name] else [])
  }
}
