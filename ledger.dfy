/**
 * The account-balance rule of the backend: starting from zero for every
 * account name, a credit adds its amount to `account`, a debit or a
 * debt_incurred subtracts it, and a transferred or self_transferred record
 * moves it from `account` to `to_account` unless that is "None". Records of
 * any other type change nothing, and a record naming an account that has no
 * entry raises KeyError.
 *
 * The same loop appears three times in the source (ExpenseTracker in
 * main.py, MongoDB and SQLiteDatabase in data_access.py); `ComputeBalances`
 * is that loop, `Fold` is what it computes, and the lemmas say what the fold
 * means: which records make it fail, what each balance ends up as, and how
 * the sum of all balances changes.
 */
module Ledger {
  import opened Records

  type Balances = map<string, int>

  /** The starting map: every account name at zero. */
  function Zeros(names: seq<string>): (m: Balances)
    ensures m.Keys == set n | n in names
    ensures forall n | n in m :: m[n] == 0
  {
    map n | n in names :: 0
  }

  /** `balances[key] += d`; a key with no entry raises KeyError. */
  function Adjust(m: Balances, key: string, d: int): Result<Balances>
  {
    if key in m then Ok(m[key := m[key] + d]) else Err(KeyError(key))
  }

  /** One iteration of the balance loop. */
  function Apply(m: Balances, t: Txn): Result<Balances>
  {
    if IsCredit(t.kind) then Adjust(m, t.account, t.amount)
    else if IsDebit(t.kind) then Adjust(m, t.account, -t.amount)
    else if IsDebt(t.kind) then Adjust(m, t.account, -t.amount)
    else if IsTransfer(t.kind) then
      match Adjust(m, t.account, -t.amount)
      case Err(e) => Err(e)
      case Ok(m1) =>
        if t.toAccount != NO_ACCOUNT then Adjust(m1, t.toAccount, t.amount) else Ok(m1)
    else Ok(m)
  }

  /** The whole loop: records applied in order, stopping at the first error. */
  function Fold(m: Balances, s: seq<Txn>): Result<Balances>
    decreases |s|
  {
    if s == [] then Ok(m)
    else
      match Fold(m, s[..|s| - 1])
      case Err(e) => Err(e)
      case Ok(m1) => Apply(m1, s[|s| - 1])
  }

  /** The signed amount a record moves on its own `account`. */
  function SignedAmount(t: Txn): int
  {
    if IsCredit(t.kind) then t.amount
    else if IsDebit(t.kind) || IsDebt(t.kind) || IsTransfer(t.kind) then -t.amount
    else 0
  }

  /** `t` is a transfer into account `x`. */
  predicate Inbound(x: string, t: Txn)
  {
    IsTransfer(t.kind) && t.toAccount != NO_ACCOUNT && t.toAccount == x
  }

  /** What record `t` does to the balance of account `x`. */
  function Effect(x: string, t: Txn): int
  {
    (if t.account == x then SignedAmount(t) else 0) + (if Inbound(x, t) then t.amount else 0)
  }

  /** The balance of account `x` that the records `s` make up. */
  function AccountNet(x: string, s: seq<Txn>): int
    decreases |s|
  {
    if s == [] then 0 else AccountNet(x, s[..|s| - 1]) + Effect(x, s[|s| - 1])
  }

  /** What record `t` does to the sum of all balances. */
  function NetEffect(t: Txn): int
  {
    if IsTransfer(t.kind) && t.toAccount != NO_ACCOUNT then 0 else SignedAmount(t)
  }

  function TotalNet(s: seq<Txn>): int
    decreases |s|
  {
    if s == [] then 0 else TotalNet(s[..|s| - 1]) + NetEffect(s[|s| - 1])
  }

  /** Every account that record `t` touches has an entry among `keys`. */
  predicate Known(keys: set<string>, t: Txn)
  {
    && (Recognised(t.kind) ==> t.account in keys)
    && (IsTransfer(t.kind) && t.toAccount != NO_ACCOUNT ==> t.toAccount in keys)
  }

  predicate Distinct(ks: seq<string>)
  {
    forall i, j :: 0 <= i < j < |ks| ==> ks[i] != ks[j]
  }

  /** The sum of the balances of the accounts `ks`. */
  function Total(m: Balances, ks: seq<string>): int
    requires forall k | k in ks :: k in m
    decreases |ks|
  {
    if ks == [] then 0 else Total(m, ks[..|ks| - 1]) + m[ks[|ks| - 1]]
  }

  /**
   * One record fails exactly when it touches an account with no entry, and
   * then with KeyError; otherwise the keys stay the same and every balance
   * moves by the record's effect on it.
   */
  lemma ApplyMeaning(m: Balances, t: Txn)
    ensures Apply(m, t).Ok? <==> Known(m.Keys, t)
    ensures Apply(m, t).Err? ==> Apply(m, t).error.KeyError?
    ensures Apply(m, t).Ok? ==> Apply(m, t).value.Keys == m.Keys
    ensures Apply(m, t).Ok? ==>
              forall x | x in m :: Apply(m, t).value[x] == m[x] + Effect(x, t)
  {
  }

  /** The fold fails exactly when some record touches an unknown account. */
  lemma {:induction false} FoldMeaning(m: Balances, s: seq<Txn>)
    ensures Fold(m, s).Ok? <==> forall i :: 0 <= i < |s| ==> Known(m.Keys, s[i])
    ensures Fold(m, s).Err? ==> Fold(m, s).error.KeyError?
    ensures Fold(m, s).Ok? ==> Fold(m, s).value.Keys == m.Keys
    ensures Fold(m, s).Ok? ==>
              forall x | x in m :: Fold(m, s).value[x] == m[x] + AccountNet(x, s)
    decreases |s|
  {
    if s != [] {
      var p, t := s[..|s| - 1], s[|s| - 1];
      FoldMeaning(m, p);
      match Fold(m, p)
      case Err(_) =>
        var i :| 0 <= i < |p| && !Known(m.Keys, p[i]);
        assert s[i] == p[i];
      case Ok(m1) =>
        ApplyMeaning(m1, t);
        assert forall i :: 0 <= i < |p| ==> s[i] == p[i];
    }
  }

  /** What one more stored record adds to the balance of `x` over `u`'s records. */
  lemma AccountNetOwnedStep(u: string, x: string, s: seq<Txn>, t: Txn)
    ensures AccountNet(x, OwnedBy(u, s + [t]))
            == AccountNet(x, OwnedBy(u, s)) + (if t.user == u then Effect(x, t) else 0)
  {
    FiltersAppend(u, x, s, t);
    if t.user == u {
      var o := OwnedBy(u, s) + [t];
      assert o[..|o| - 1] == OwnedBy(u, s);
      assert AccountNet(x, o) == AccountNet(x, OwnedBy(u, s)) + Effect(x, t);
    } else {
      assert OwnedBy(u, s + [t]) == OwnedBy(u, s) + [] == OwnedBy(u, s);
    }
  }

  /**
   * The account-balance report: every name at zero, the records folded in
   * newest first. It fails, with KeyError, exactly when a record touches an
   * account not among the names; otherwise it has one entry per name, holding
   * the balance the records make up for that account in stored order.
   */
  lemma AccountBalancesMeaning(names: seq<string>, s: seq<Txn>)
    ensures Fold(Zeros(names), NewestFirst(s)).Ok? ==> forall t | t in s :: Known((set n | n in names), t)
    ensures (forall t | t in s :: Known((set n | n in names), t)) ==> Fold(Zeros(names), NewestFirst(s)).Ok?
    ensures Fold(Zeros(names), NewestFirst(s)).Err? ==> Fold(Zeros(names), NewestFirst(s)).error.KeyError?
    ensures Fold(Zeros(names), NewestFirst(s)).Ok? ==>
              Fold(Zeros(names), NewestFirst(s)).value.Keys == set n | n in names
    ensures Fold(Zeros(names), NewestFirst(s)).Ok? ==>
              forall x | x in Fold(Zeros(names), NewestFirst(s)).value ::
                Fold(Zeros(names), NewestFirst(s)).value[x] == AccountNet(x, s)
  {
    var keys := set n | n in names;
    FoldMeaning(Zeros(names), NewestFirst(s));
    AllNewestFirst(s, t => Known(keys, t));
    forall x | x in keys {
      AccountNetNewestFirst(x, s);
    }
  }

  /** Once a prefix of the records fails, the whole fold fails with its error. */
  lemma {:induction false} FoldErrPersists(m: Balances, s: seq<Txn>, j: nat)
    requires j <= |s| && Fold(m, s[..j]).Err?
    ensures Fold(m, s) == Fold(m, s[..j])
    decreases |s|
  {
    if j < |s| {
      var p := s[..|s| - 1];
      assert p[..j] == s[..j];
      FoldErrPersists(m, p, j);
    } else {
      assert s[..j] == s;
    }
  }

  lemma {:induction false} TotalAdjust(m: Balances, ks: seq<string>, key: string, d: int)
    requires Distinct(ks) && key in m
    requires forall k | k in ks :: k in m
    ensures Total(m[key := m[key] + d], ks) == Total(m, ks) + (if key in ks then d else 0)
    decreases |ks|
  {
    if ks != [] {
      var p := ks[..|ks| - 1];
      assert Distinct(p);
      TotalAdjust(m, p, key, d);
      assert key in ks <==> key in p || key == ks[|ks| - 1];
      assert ks[|ks| - 1] !in p;
    }
  }

  /**
   * A credit raises the sum of all balances by its amount, a debit or debt
   * (or a transfer to "None") lowers it by its amount, and a transfer between
   * two accounts leaves it unchanged.
   */
  lemma ApplyTotal(m: Balances, t: Txn, ks: seq<string>)
    requires Distinct(ks) && m.Keys == set k | k in ks
    requires Apply(m, t).Ok?
    ensures Apply(m, t).value.Keys == m.Keys
    ensures Total(Apply(m, t).value, ks) == Total(m, ks) + NetEffect(t)
  {
    if IsCredit(t.kind) {
      TotalAdjust(m, ks, t.account, t.amount);
    } else if IsDebit(t.kind) || IsDebt(t.kind) {
      TotalAdjust(m, ks, t.account, -t.amount);
    } else if IsTransfer(t.kind) {
      TransferTotal(m, t, ks);
    }
  }

  lemma TransferTotal(m: Balances, t: Txn, ks: seq<string>)
    requires Distinct(ks) && m.Keys == set k | k in ks
    requires !IsCredit(t.kind) && !IsDebit(t.kind) && !IsDebt(t.kind) && IsTransfer(t.kind)
    requires Apply(m, t).Ok?
    ensures Apply(m, t).value.Keys == m.Keys
    ensures Total(Apply(m, t).value, ks) == Total(m, ks) + NetEffect(t)
  {
    assert t.account in m;
    var m1 := m[t.account := m[t.account] - t.amount];
    assert Apply(m, t) == if t.toAccount != NO_ACCOUNT then Adjust(m1, t.toAccount, t.amount) else Ok(m1);
    TotalAdjust(m, ks, t.account, -t.amount);
    if t.toAccount != NO_ACCOUNT {
      TotalAdjust(m1, ks, t.toAccount, t.amount);
    }
  }

  /** Over a whole fold, the sum of all balances moves by the records' net effects. */
  lemma {:induction false} FoldTotal(m: Balances, s: seq<Txn>, ks: seq<string>)
    requires Distinct(ks) && m.Keys == set k | k in ks
    requires Fold(m, s).Ok?
    ensures Fold(m, s).value.Keys == m.Keys
    ensures Total(Fold(m, s).value, ks) == Total(m, ks) + TotalNet(s)
    decreases |s|
  {
    if s != [] {
      var p := s[..|s| - 1];
      FoldTotal(m, p, ks);
      ApplyTotal(Fold(m, p).value, s[|s| - 1], ks);
    }
  }

  /** Records that are all transfers between two accounts conserve the sum of all balances. */
  lemma {:induction false} TransfersConserveTotal(m: Balances, s: seq<Txn>, ks: seq<string>)
    requires Distinct(ks) && m.Keys == set k | k in ks
    requires forall i :: 0 <= i < |s| ==> IsTransfer(s[i].kind) && s[i].toAccount != NO_ACCOUNT
    requires Fold(m, s).Ok?
    ensures Fold(m, s).value.Keys == m.Keys
    ensures Total(Fold(m, s).value, ks) == Total(m, ks)
  {
    FoldTotal(m, s, ks);
    TransfersNetZero(s);
  }

  lemma {:induction false} TransfersNetZero(s: seq<Txn>)
    requires forall i :: 0 <= i < |s| ==> IsTransfer(s[i].kind) && s[i].toAccount != NO_ACCOUNT
    ensures TotalNet(s) == 0
    decreases |s|
  {
    if s != [] {
      TransfersNetZero(s[..|s| - 1]);
    }
  }

  lemma {:induction false} AccountNetAppend(x: string, a: seq<Txn>, b: seq<Txn>)
    ensures AccountNet(x, a + b) == AccountNet(x, a) + AccountNet(x, b)
    decreases |b|
  {
    if b != [] {
      assert (a + b)[..|a + b| - 1] == a + b[..|b| - 1];
      AccountNetAppend(x, a, b[..|b| - 1]);
    } else {
      assert a + b == a;
    }
  }

  /**
   * The balance loop reads the records newest first; the balance it reaches is
   * the one the records make up in stored order.
   */
  lemma {:induction false} AccountNetNewestFirst(x: string, s: seq<Txn>)
    ensures AccountNet(x, NewestFirst(s)) == AccountNet(x, s)
    decreases |s|
  {
    if s != [] {
      var p, t := s[..|s| - 1], s[|s| - 1];
      AccountNetNewestFirst(x, p);
      assert NewestFirst(s) == [t] + NewestFirst(p);
      AccountNetAppend(x, [t], NewestFirst(p));
      assert AccountNet(x, [t]) == Effect(x, t) by {
        assert [t][..0] == [];
      }
    }
  }

  /**
   * The opening-balance record of `create_account`: none for a zero balance,
   * otherwise a credit for a positive and a debit for a negative balance, of
   * the balance's absolute value.
   */
  function OpeningTransaction(initial: int): (r: Option<(string, int)>)
    ensures r.None? <==> initial == 0
    ensures r.Some? ==> r.value.1 > 0 && (r.value.1 == initial || r.value.1 == -initial)
    ensures r.Some? ==> (r.value.0 == "credit" <==> initial > 0)
    ensures r.Some? ==> (r.value.0 == "debit" <==> initial < 0)
  {
    if initial != 0 then
      Some((if initial > 0 then "credit" else "debit", if initial < 0 then -initial else initial))
    else None
  }

  /** Applying the opening record to a fresh account sets it to the initial balance. */
  lemma OpeningRestoresInitial(m: Balances, name: string, initial: int, t: Txn)
    requires name in m && m[name] == 0
    requires OpeningTransaction(initial).Some?
    requires t.kind == OpeningTransaction(initial).value.0
    requires t.amount == OpeningTransaction(initial).value.1
    requires t.account == name
    ensures Apply(m, t) == Ok(m[name := initial])
  {
    CanonicalKinds();
  }

  /** One iteration of the balance loop, as the source writes it. */
  method ApplyRecord(balances: Balances, t: Txn) returns (r: Result<Balances>)
    ensures r == Apply(balances, t)
  {
    var kind := Lower(t.kind);
    var amount := t.amount;
    if kind == "credit" {
      if t.account !in balances { return Err(KeyError(t.account)); }
      r := Ok(balances[t.account := balances[t.account] + amount]);
    } else if kind == "debit" {
      if t.account !in balances { return Err(KeyError(t.account)); }
      r := Ok(balances[t.account := balances[t.account] - amount]);
    } else if kind == "debt_incurred" {
      if t.account !in balances { return Err(KeyError(t.account)); }
      r := Ok(balances[t.account := balances[t.account] - amount]);
    } else if kind == "transferred" || kind == "self_transferred" {
      if t.account !in balances { return Err(KeyError(t.account)); }
      var updated := balances[t.account := balances[t.account] - amount];
      if t.toAccount != NO_ACCOUNT {
        if t.toAccount !in updated { return Err(KeyError(t.toAccount)); }
        updated := updated[t.toAccount := updated[t.toAccount] + amount];
      }
      r := Ok(updated);
    } else {
      r := Ok(balances);
    }
  }

  /**
   * The balance loop: every name starts at zero and the records are applied
   * in the order given; the first KeyError ends it.
   */
  method ComputeBalances(names: seq<string>, txns: seq<Txn>) returns (r: Result<Balances>)
    ensures r == Fold(Zeros(names), txns)
  {
    var balances := Zeros(names);
    var i := 0;
    while i < |txns|
      invariant i <= |txns|
      invariant Fold(Zeros(names), txns[..i]) == Ok(balances)
    {
      assert txns[..i + 1][..i] == txns[..i];
      var step := ApplyRecord(balances, txns[i]);
      if step.Err? {
        FoldErrPersists(Zeros(names), txns, i + 1);
        return step;
      }
      balances := step.value;
      i := i + 1;
    }
    assert txns[..i] == txns;
    r := Ok(balances);
  }
}
