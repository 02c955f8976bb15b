/**
 * Spending by category: the debit records of a period, grouped by category
 * with their amounts summed. Only the group-by-sum meaning of the pandas
 * pipeline is modelled.
 */
module Spending {
  import opened Records

  /** The period restriction applies only when both ends are given; both ends are inclusive. */
  predicate InPeriod(t: Txn, start: Option<int>, end: Option<int>)
  {
    start.Some? && end.Some? ==> start.value <= t.date <= end.value
  }

  function Period(s: seq<Txn>, start: Option<int>, end: Option<int>): (r: seq<Txn>)
    ensures forall t | t in r :: t in s && InPeriod(t, start, end)
    ensures forall t | t in s && InPeriod(t, start, end) :: t in r
    decreases |s|
  {
    if s == [] then []
    else
      var t := s[|s| - 1];
      Period(s[..|s| - 1], start, end) + (if InPeriod(t, start, end) then [t] else [])
  }

  /** The records whose lower-cased type is "debit". */
  function Debits(s: seq<Txn>): (r: seq<Txn>)
    ensures forall t | t in r :: t in s && IsDebit(t.kind)
    ensures forall t | t in s && IsDebit(t.kind) :: t in r
    decreases |s|
  {
    if s == [] then []
    else
      var t := s[|s| - 1];
      Debits(s[..|s| - 1]) + (if IsDebit(t.kind) then [t] else [])
  }

  function Categories(s: seq<Txn>): set<string>
  {
    set t | t in s :: t.category
  }

  /** The sum of the amounts of the records of category `c`. */
  function CategoryTotal(s: seq<Txn>, c: string): int
    decreases |s|
  {
    if s == [] then 0
    else
      var t := s[|s| - 1];
      CategoryTotal(s[..|s| - 1], c) + (if t.category == c then t.amount else 0)
  }

  /** `groupby('category')['amount'].sum()`: one entry per category present. */
  function GroupSum(s: seq<Txn>): (r: map<string, int>)
    ensures r.Keys == Categories(s)
    decreases |s|
  {
    if s == [] then map[]
    else
      var p, t := s[..|s| - 1], s[|s| - 1];
      var m := GroupSum(p);
      assert Categories(s) == Categories(p) + {t.category} by {
        assert s == p + [t];
      }
      m[t.category := (if t.category in m then m[t.category] else 0) + t.amount]
  }

  /** Each group holds the sum of its category's amounts. */
  lemma {:induction false} GroupSumTotals(s: seq<Txn>)
    ensures forall c | c in GroupSum(s) :: GroupSum(s)[c] == CategoryTotal(s, c)
    decreases |s|
  {
    if s != [] {
      var p := s[..|s| - 1];
      GroupSumTotals(p);
      forall c | c in GroupSum(s) ensures GroupSum(s)[c] == CategoryTotal(s, c) {
        if c !in GroupSum(p) {
          CategoryTotalAbsent(p, c);
        }
      }
    }
  }

  /** A category with no record totals zero. */
  lemma {:induction false} CategoryTotalAbsent(s: seq<Txn>, c: string)
    requires c !in Categories(s)
    ensures CategoryTotal(s, c) == 0
    decreases |s|
  {
    if s != [] {
      var p := s[..|s| - 1];
      assert Categories(p) <= Categories(s) by {
        assert forall t | t in p :: t in s;
      }
      assert s[|s| - 1] in s;
      CategoryTotalAbsent(p, c);
    }
  }

  /**
   * The spending report: for an empty list, an empty period or no debits it
   * is empty; otherwise it has one entry per category of the period's debit
   * records, holding the sum of their amounts.
   */
  function SpendingByCategory(s: seq<Txn>, start: Option<int>, end: Option<int>): (r: map<string, int>)
    ensures r.Keys == Categories(Debits(Period(s, start, end)))
    ensures forall c | c in r :: r[c] == CategoryTotal(Debits(Period(s, start, end)), c)
  {
    if s == [] then map[]
    else
      var period := Period(s, start, end);
      if period == [] then map[]
      else
        var debits := Debits(period);
        if debits == [] then map[]
        else
          GroupSumTotals(debits);
          GroupSum(debits)
  }
}
