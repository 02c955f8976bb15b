/**
 * The MongoDB query documents the backend builds from a transaction filter
 * payload, and what they select.
 *
 * A query is a map from field name to a condition: plain equality, `$in`, a
 * `$gte`/`$lte` range, or the `$or` of three case-insensitive regular
 * expressions over description, place and category. Regular-expression
 * matching is not modelled: it is the parameter `rx`, `rx(term, text)` being
 * "text matches term, ignoring case".
 */
module MongoFilter {
  import opened Records

  /** The keys of a query document: a stored record's fields, and `$or`. */
  datatype Key =
    | UserId | Description | Place | Type | Category | Account | ToAccount | PaidBy | Status
    | Date | Amount | Search

  /** The document key as the backend writes it. */
  function KeyName(k: Key): string
  {
    match k
    case UserId => "user_id"
    case Description => "description"
    case Place => "place"
    case Type => "type"
    case Category => "category"
    case Account => "account"
    case ToAccount => "to_account"
    case PaidBy => "paid_by"
    case Status => "status"
    case Date => "date"
    case Amount => "amount"
    case Search => "$or"
  }

  /** A `{"$gte": ..., "$lte": ...}` document; a missing operator is `None`. */
  datatype Range = Range(gte: Option<int>, lte: Option<int>)

  const NO_RANGE: Range := Range(None, None)

  /**
   * A condition: an exact string, an `{"$in": items}` document, a range
   * document, or the `$or` list of three case-insensitive regex matches.
   */
  datatype Value =
    | Text(s: string)
    | AnyOf(items: seq<string>)
    | Bounds(b: Range)
    | SearchAny(term: string)

  type Query = map<Key, Value>

  /** The request body of the filter endpoint; every field but page and limit is optional. */
  datatype FilterPayload = FilterPayload(
    page: int,
    limit: int,
    searchTerm: Option<string>,
    dateFrom: Option<int>,
    dateTo: Option<int>,
    types: Option<seq<string>>,
    categories: Option<seq<string>>,
    accounts: Option<seq<string>>,
    minAmount: Option<int>,
    maxAmount: Option<int>)

  /** Python truthiness of an optional string: given and non-empty. */
  predicate TextGiven(o: Option<string>) { o.Some? && o.value != "" }

  /** Python truthiness of an optional list: given and non-empty. */
  predicate ListGiven(o: Option<seq<string>>) { o.Some? && o.value != [] }

  /** The string-valued fields of a stored transaction. */
  function StringField(k: Key, t: Txn): Option<string>
  {
    match k
    case UserId => Some(t.user)
    case Description => Some(t.description)
    case Place => Some(t.place)
    case Type => Some(t.kind)
    case Category => Some(t.category)
    case Account => Some(t.account)
    case ToAccount => Some(t.toAccount)
    case PaidBy => Some(t.paidBy)
    case Status => Some(t.status)
    case _ => None
  }

  /** The number-valued fields of a stored transaction. */
  function IntField(k: Key, t: Txn): Option<int>
  {
    match k
    case Date => Some(t.date)
    case Amount => Some(t.amount)
    case _ => None
  }

  predicate InRange(v: int, b: Range)
  {
    (b.gte.Some? ==> v >= b.gte.value) && (b.lte.Some? ==> v <= b.lte.value)
  }

  /** Condition `v` on key `k` holds of record `t`. */
  predicate Holds(k: Key, v: Value, t: Txn, rx: (string, string) -> bool)
  {
    match v
    case Text(s) => StringField(k, t) == Some(s)
    case AnyOf(items) => StringField(k, t).Some? && StringField(k, t).value in items
    case Bounds(b) => IntField(k, t).Some? && InRange(IntField(k, t).value, b)
    case SearchAny(term) => rx(term, t.description) || rx(term, t.place) || rx(term, t.category)
  }

  /** Record `t` matches query `q`: every condition holds. */
  predicate Matches(q: Query, t: Txn, rx: (string, string) -> bool)
  {
    forall k | k in q :: Holds(k, q[k], t, rx)
  }

  /** `collection.find(q)`: the matching records, in stored order. */
  function Select(q: Query, s: seq<Txn>, rx: (string, string) -> bool): (r: seq<Txn>)
    ensures forall t | t in r :: t in s && Matches(q, t, rx)
    ensures forall t | t in s && Matches(q, t, rx) :: t in r
    decreases |s|
  {
    if s == [] then []
    else
      var t := s[|s| - 1];
      Select(q, s[..|s| - 1], rx) + (if Matches(q, t, rx) then [t] else [])
  }

  /**
   * What a payload asks of a record, field by field: the search term (when
   * non-empty) matches description, place or category; the date and amount
   * lie within whichever bounds are given; the type, category and account are
   * among the listed ones when a non-empty list is given.
   */
  predicate Satisfies(f: FilterPayload, t: Txn, rx: (string, string) -> bool)
  {
    && (TextGiven(f.searchTerm) ==>
          rx(f.searchTerm.value, t.description) || rx(f.searchTerm.value, t.place)
          || rx(f.searchTerm.value, t.category))
    && (f.dateFrom.Some? ==> t.date >= f.dateFrom.value)
    && (f.dateTo.Some? ==> t.date <= f.dateTo.value)
    && (ListGiven(f.types) ==> t.kind in f.types.value)
    && (ListGiven(f.categories) ==> t.category in f.categories.value)
    && (ListGiven(f.accounts) ==> t.account in f.accounts.value)
    && (f.minAmount.Some? ==> t.amount >= f.minAmount.value)
    && (f.maxAmount.Some? ==> t.amount <= f.maxAmount.value)
  }

  /** The keys a filter query built from a payload can hold. */
  const FILTER_KEYS: set<Key> := {Search, Date, Type, Category, Key.Account, Amount}

  /** The condition a payload puts on query key `k`, if any. */
  function Condition(f: FilterPayload, k: Key): Option<Value>
  {
    match k
    case Search => if TextGiven(f.searchTerm) then Some(SearchAny(f.searchTerm.value)) else None
    case Date =>
      if f.dateFrom.Some? || f.dateTo.Some? then Some(Bounds(Range(f.dateFrom, f.dateTo))) else None
    case Type => if ListGiven(f.types) then Some(AnyOf(f.types.value)) else None
    case Category => if ListGiven(f.categories) then Some(AnyOf(f.categories.value)) else None
    case Account => if ListGiven(f.accounts) then Some(AnyOf(f.accounts.value)) else None
    case Amount =>
      if f.minAmount.Some? || f.maxAmount.Some? then Some(Bounds(Range(f.minAmount, f.maxAmount))) else None
    case _ => None
  }

  /**
   * The query a payload stands for, field by field (the user restriction
   * aside): each key is there only when its field is given.
   */
  function PayloadQuery(f: FilterPayload): (q: Query)
    ensures UserId !in q
    ensures Search in q <==> TextGiven(f.searchTerm)
    ensures Date in q <==> f.dateFrom.Some? || f.dateTo.Some?
    ensures Type in q <==> ListGiven(f.types)
    ensures Category in q <==> ListGiven(f.categories)
    ensures Key.Account in q <==> ListGiven(f.accounts)
    ensures Amount in q <==> f.minAmount.Some? || f.maxAmount.Some?
    ensures q.Keys <= FILTER_KEYS
    ensures Date in q ==> q[Date] == Bounds(Range(f.dateFrom, f.dateTo))
    ensures Amount in q ==> q[Amount] == Bounds(Range(f.minAmount, f.maxAmount))
  {
    map k | k in FILTER_KEYS && Condition(f, k).Some? :: Condition(f, k).value
  }

  /** A record matches a payload's query exactly when it satisfies the payload. */
  lemma PayloadQueryMeaning(f: FilterPayload, t: Txn, rx: (string, string) -> bool)
    ensures Matches(PayloadQuery(f), t, rx) <==> Satisfies(f, t, rx)
  {
    var q := PayloadQuery(f);
    if Satisfies(f, t, rx) {
      forall key | key in q ensures Holds(key, q[key], t, rx) {
      }
    } else if TextGiven(f.searchTerm) && !Holds(Search, q[Search], t, rx) {
    } else if f.dateFrom.Some? && t.date < f.dateFrom.value {
      assert !Holds(Date, q[Date], t, rx);
    } else if f.dateTo.Some? && t.date > f.dateTo.value {
      assert !Holds(Date, q[Date], t, rx);
    } else if ListGiven(f.types) && t.kind !in f.types.value {
      assert !Holds(Type, q[Type], t, rx);
    } else if ListGiven(f.categories) && t.category !in f.categories.value {
      assert !Holds(Category, q[Category], t, rx);
    } else if ListGiven(f.accounts) && t.account !in f.accounts.value {
      assert !Holds(Key.Account, q[Key.Account], t, rx);
    } else {
      assert !Holds(Amount, q[Amount], t, rx);
    }
  }

  /** The payload's query restricted to user `u`, as main.py builds it. */
  function UserQuery(u: string, f: FilterPayload): Query
  {
    PayloadQuery(f)[UserId := Text(u)]
  }

  /** A record matches the user-scoped query exactly when it is `u`'s and satisfies the payload. */
  lemma UserQueryMeaning(u: string, f: FilterPayload, t: Txn, rx: (string, string) -> bool)
    ensures Matches(UserQuery(u, f), t, rx) <==> t.user == u && Satisfies(f, t, rx)
  {
    var q := PayloadQuery(f);
    PayloadQueryMeaning(f, t, rx);
    if t.user == u && Satisfies(f, t, rx) {
      forall key | key in UserQuery(u, f) ensures Holds(key, UserQuery(u, f)[key], t, rx) {
        if key != UserId {
          assert Holds(key, q[key], t, rx);
        }
      }
    } else if t.user != u {
      assert !Holds(UserId, UserQuery(u, f)[UserId], t, rx);
    } else {
      var key :| key in q && !Holds(key, q[key], t, rx);
      assert UserQuery(u, f)[key] == q[key];
    }
  }

  /** Adds key `k` to a query when the payload puts a condition on it. */
  function With(q: Query, k: Key, c: Option<Value>): Query
  {
    if c.Some? then q[k := c.value] else q
  }

  lemma Added(before: Query, after: Query, k: Key, c: Option<Value>)
    requires c.Some? ==> after == before[k := c.value]
    requires c.None? ==> after == before
    ensures after == With(before, k, c)
  {
  }

  /**
   * The query both trackers build on top of `base`, one key at a time in the
   * order they add them: search term, dates, types, categories, accounts,
   * amounts.
   */
  function Built(base: Query, f: FilterPayload): Query
  {
    With(With(With(With(With(With(base,
      Search, Condition(f, Search)), Date, Condition(f, Date)), Type, Condition(f, Type)),
      Category, Condition(f, Category)), Key.Account, Condition(f, Key.Account)), Amount, Condition(f, Amount))
  }

  /** Building key by key adds exactly the payload's query to a base without filter keys. */
  lemma BuiltAddsPayload(base: Query, f: FilterPayload)
    requires base.Keys !! FILTER_KEYS
    ensures Built(base, f) == base + PayloadQuery(f)
  {
    var q := Built(base, f);
    var expected := base + PayloadQuery(f);
    forall k ensures k in q <==> k in expected {
      BuiltAt(base, f, k);
    }
    forall k | k in q ensures q[k] == expected[k] {
      BuiltAt(base, f, k);
    }
    assert q == expected;
  }

  /** One key of a built query: the payload's condition on it, or else the base's. */
  lemma BuiltAt(base: Query, f: FilterPayload, k: Key)
    requires base.Keys !! FILTER_KEYS
    ensures k in Built(base, f) <==> k in base || k in PayloadQuery(f)
    ensures k in Built(base, f) ==>
              Built(base, f)[k] == if k in PayloadQuery(f) then PayloadQuery(f)[k] else base[k]
  {
    match k
    case Search =>
    case Date =>
    case Type =>
    case Category =>
    case Account =>
    case Amount =>
    case _ =>
  }

  /** The user-scoped query is the payload's query built on top of the user condition. */
  lemma UserQueryByKeys(u: string, f: FilterPayload)
    ensures UserQuery(u, f) == Built(map[UserId := Text(u)], f)
  {
    BuiltAddsPayload(map[UserId := Text(u)], f);
    var expected := UserQuery(u, f);
    var q := map[UserId := Text(u)] + PayloadQuery(f);
    assert q.Keys == expected.Keys;
    assert q == expected;
  }

  /** The payload's query alone is the same keys built on an empty query. */
  lemma PayloadByKeys(f: FilterPayload)
    ensures PayloadQuery(f) == Built(map[], f)
  {
    BuiltAddsPayload(map[], f);
    var q: Query := map[];
    assert q + PayloadQuery(f) == PayloadQuery(f);
  }

  /** `(page - 1) * limit`, the number of records a page skips. */
  function Skip(page: int, limit: int): int
  {
    (page - 1) * limit
  }

  /** How many of `count` records a window holds. */
  function PageLength(count: nat, skip: int, limit: int): nat
  {
    var rest := if 0 <= skip <= count then count - skip else 0;
    var n := if limit < 0 then -limit else limit;
    if n == 0 || rest <= n then rest else n
  }

  /**
   * `cursor.skip(skip).limit(limit)` as the driver runs it: a negative skip is
   * refused with ValueError, a zero limit means no limit, and a negative limit
   * returns at most its absolute value.
   */
  function Window(rows: seq<Txn>, skip: int, limit: int): (r: Result<seq<Txn>>)
    ensures r.Err? <==> skip < 0
    ensures r.Err? ==> r.error == ValueError("skip must be >= 0")
    ensures r.Ok? ==> forall i :: 0 <= i < |r.value| ==> skip + i < |rows| && r.value[i] == rows[skip + i]
    ensures r.Ok? && limit != 0 ==> |r.value| <= if limit < 0 then -limit else limit
    ensures r.Ok? ==> |r.value| == PageLength(|rows|, skip, limit)
  {
    if skip < 0 then Err(ValueError("skip must be >= 0"))
    else
      var rest := if skip <= |rows| then rows[skip..] else [];
      var n := if limit < 0 then -limit else limit;
      Ok(if n == 0 || |rest| <= n then rest else rest[..n])
  }

  /** A window holds only records of the rows it is cut from. */
  lemma WindowMembers(rows: seq<Txn>, skip: int, limit: int)
    ensures Window(rows, skip, limit).Ok? ==> forall t | t in Window(rows, skip, limit).value :: t in rows
  {
    var r := Window(rows, skip, limit);
    if r.Ok? {
      forall t | t in r.value ensures t in rows {
        var i :| 0 <= i < |r.value| && r.value[i] == t;
        assert t == rows[skip + i];
      }
    }
  }

  /** Pages 1 to k with a positive limit, one after another. */
  function FirstPages(rows: seq<Txn>, limit: int, k: nat): seq<Txn>
    requires limit > 0
  {
    if k == 0 then [] else FirstPages(rows, limit, k - 1) + Window(rows, Skip(k, limit), limit).value
  }

  /**
   * With a positive limit, pages 1, 2, ... tile the result without gap or
   * overlap: the first k pages are exactly the first k * limit records.
   */
  lemma {:induction false} PagesTile(rows: seq<Txn>, limit: int, k: nat)
    requires limit > 0
    ensures FirstPages(rows, limit, k) == rows[..if k * limit <= |rows| then k * limit else |rows|]
  {
    if k > 0 {
      PagesTile(rows, limit, k - 1);
      var skip := (k - 1) * limit;
      PageStart(k, limit);
      var lo := if skip <= |rows| then skip else |rows|;
      var hi := if skip + limit <= |rows| then skip + limit else |rows|;
      WindowSlice(rows, skip, limit);
      SlicesJoin(rows, lo, hi);
    }
  }

  lemma PageStart(k: nat, limit: int)
    requires k > 0 && limit > 0
    ensures Skip(k, limit) == (k - 1) * limit >= 0
    ensures k * limit == (k - 1) * limit + limit
  {
  }

  lemma SlicesJoin(rows: seq<Txn>, lo: nat, hi: nat)
    requires lo <= hi <= |rows|
    ensures rows[..lo] + rows[lo..hi] == rows[..hi]
  {
  }

  /** With a positive limit, a window is a slice of the rows. */
  lemma WindowSlice(rows: seq<Txn>, skip: nat, limit: int)
    requires limit > 0
    ensures Window(rows, skip, limit).value
            == rows[(if skip <= |rows| then skip else |rows|)..(if skip + limit <= |rows| then skip + limit else |rows|)]
  {
  }
}
