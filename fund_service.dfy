/** The fund ledger: funds (money lent to or borrowed from a person) and the
    partial-payment transactions recorded against them, kept in two tables.
    Every mutation re-checks that a fund's transactions never add up to more than
    its principal; `LedgerInvariant` states this, and every method of `FundStore`
    preserves it. */
module FundService {
  import opened Wrappers
  import opened Seqs
  import opened ObjectIds
  import opened Models

  datatype FundError =
    | InvalidUserId
    | InvalidFundId
    | InvalidTransactionId
    | InvalidFundType
    | PrincipalNotPositive
    | PrincipalBelowTotalPaid(totalPaid: real)
    | AmountNotPositive
    | ExceedsPrincipal(maximumAllowed: real)
    | FundNotFound
    | TransactionNotFound
    | DuplicateKey

  const FundNotFoundMessage: string := "fund not found or doesn't belong to user"
  const TransactionNotFoundMessage: string := "transaction not found or doesn't belong to fund"

  /** The text of `err.Error()`. Amounts that the Go code prints with `%.2f` are
      carried by the error value instead of being formatted into the text. */
  function Message(e: FundError): (m: string)
    ensures m == FundNotFoundMessage <==> e == FundNotFound
    ensures m == TransactionNotFoundMessage <==> e == TransactionNotFound
  {
    match e
    case InvalidUserId => "invalid user ID"
    case InvalidFundId => "invalid fund ID"
    case InvalidTransactionId => "invalid transaction ID"
    case InvalidFundType => "invalid fund type, must be BORROWED or GIVEN"
    case PrincipalNotPositive => "principal amount must be greater than 0"
    case PrincipalBelowTotalPaid(_) => "principal amount cannot be less than total paid"
    case AmountNotPositive => "transaction amount must be greater than 0"
    case ExceedsPrincipal(_) => "transaction amount would exceed principal amount. Maximum allowed"
    case FundNotFound => FundNotFoundMessage
    case TransactionNotFound => TransactionNotFoundMessage
    case DuplicateKey => "E11000 duplicate key error"
  }

  // ---------------------------------------------------------------------------
  // Totals over the transaction table

  /** What one transaction adds to the total of fund `fundId`. */
  function Contribution(t: Transaction, fundId: ObjectId): real {
    if t.fundId == fundId then t.amount else 0.0
  }

  /** `CalculateTotalPaid`: the `$match`/`$sum` aggregation over the transaction
      table; 0 when the fund has no transactions. */
  function CalculateTotalPaid(txs: seq<Transaction>, fundId: ObjectId): real {
    if txs == [] then 0.0 else Contribution(txs[0], fundId) + CalculateTotalPaid(txs[1..], fundId)
  }

  /** The sum of all the amounts in a list of transactions. */
  function Sum(ts: seq<Transaction>): real {
    if ts == [] then 0.0 else ts[0].amount + Sum(ts[1..])
  }

  function OfFund(fundId: ObjectId): Transaction -> bool {
    (t: Transaction) => t.fundId == fundId
  }

  /** The filter of `GetAllFunds`: the funds of one user. */
  function OwnedBy(userId: ObjectId): Fund -> bool {
    (f: Fund) => f.userId == userId
  }

  function NotOfFund(fundId: ObjectId): Transaction -> bool {
    (t: Transaction) => t.fundId != fundId
  }

  lemma {:induction false} TotalPaidConcat(a: seq<Transaction>, b: seq<Transaction>, f: ObjectId)
    ensures CalculateTotalPaid(a + b, f) == CalculateTotalPaid(a, f) + CalculateTotalPaid(b, f)
  {
    if a == [] {
      assert a + b == b;
    } else {
      assert (a + b)[1..] == a[1..] + b;
      TotalPaidConcat(a[1..], b, f);
    }
  }

  /** Appending a transaction raises exactly its own fund's total, by its amount. */
  lemma TotalPaidAppend(s: seq<Transaction>, t: Transaction, f: ObjectId)
    ensures CalculateTotalPaid(s + [t], f) == CalculateTotalPaid(s, f) + Contribution(t, f)
  {
    TotalPaidConcat(s, [t], f);
  }

  /** Replacing one transaction swaps its contribution for the new one's. */
  lemma TotalPaidUpdate(s: seq<Transaction>, k: nat, t: Transaction, f: ObjectId)
    requires k < |s|
    ensures CalculateTotalPaid(s[k := t], f) == CalculateTotalPaid(s, f) - Contribution(s[k], f) + Contribution(t, f)
  {
    assert s == s[..k] + [s[k]] + s[k + 1..];
    assert s[k := t] == s[..k] + [t] + s[k + 1..];
    TotalPaidConcat(s[..k] + [s[k]], s[k + 1..], f);
    TotalPaidConcat(s[..k] + [t], s[k + 1..], f);
    TotalPaidAppend(s[..k], s[k], f);
    TotalPaidAppend(s[..k], t, f);
  }

  /** Removing one transaction lowers only its own fund's total, by its amount. */
  lemma TotalPaidRemoveAt(s: seq<Transaction>, k: nat, f: ObjectId)
    requires k < |s|
    ensures CalculateTotalPaid(RemoveAt(s, k), f) == CalculateTotalPaid(s, f) - Contribution(s[k], f)
  {
    assert s == s[..k] + [s[k]] + s[k + 1..];
    assert RemoveAt(s, k) == s[..k] + s[k + 1..];
    TotalPaidConcat(s[..k] + [s[k]], s[k + 1..], f);
    TotalPaidConcat(s[..k], s[k + 1..], f);
    TotalPaidAppend(s[..k], s[k], f);
  }

  /** Deleting every transaction of fund `g` zeroes its total and leaves every other fund's. */
  lemma {:induction false} TotalPaidWithoutFund(s: seq<Transaction>, g: ObjectId, f: ObjectId)
    ensures CalculateTotalPaid(Filter(s, NotOfFund(g)), f) == if f == g then 0.0 else CalculateTotalPaid(s, f)
  {
    if s != [] {
      TotalPaidWithoutFund(s[1..], g, f);
      var rest := Filter(s[1..], NotOfFund(g));
      if NotOfFund(g)(s[0]) {
        assert Filter(s, NotOfFund(g)) == [s[0]] + rest;
        assert ([s[0]] + rest)[1..] == rest;
      } else {
        assert Filter(s, NotOfFund(g)) == rest;
      }
    }
  }

  /** A fund no transaction refers to has total paid 0. */
  lemma {:induction false} TotalPaidOfUnreferencedFund(s: seq<Transaction>, f: ObjectId)
    requires forall t :: t in s ==> t.fundId != f
    ensures CalculateTotalPaid(s, f) == 0.0
  {
    if s != [] {
      assert s[0] in s;
      TotalPaidOfUnreferencedFund(s[1..], f);
    }
  }

  lemma {:induction false} TotalPaidNonNegative(s: seq<Transaction>, f: ObjectId)
    requires forall t :: t in s ==> t.amount > 0.0
    ensures CalculateTotalPaid(s, f) >= 0.0
  {
    if s != [] {
      assert s[0] in s;
      TotalPaidNonNegative(s[1..], f);
    }
  }

  /** The total is the plain sum over the fund's own transactions. */
  lemma {:induction false} TotalPaidIsSumOfFundTransactions(s: seq<Transaction>, f: ObjectId)
    ensures Sum(Filter(s, OfFund(f))) == CalculateTotalPaid(s, f)
  {
    if s != [] {
      TotalPaidIsSumOfFundTransactions(s[1..], f);
      var rest := Filter(s[1..], OfFund(f));
      if OfFund(f)(s[0]) {
        assert Filter(s, OfFund(f)) == [s[0]] + rest;
        assert ([s[0]] + rest)[1..] == rest;
      } else {
        assert Filter(s, OfFund(f)) == rest;
      }
    }
  }

  // ---------------------------------------------------------------------------
  // Outstanding amount and status

  /** `CalculateOutstanding`: the principal still to be paid, never below 0. */
  function CalculateOutstanding(fund: Fund, txs: seq<Transaction>): (r: real)
    ensures r >= 0.0 && r >= fund.principal - CalculateTotalPaid(txs, fund.id)
    ensures r == 0.0 || r == fund.principal - CalculateTotalPaid(txs, fund.id)
  {
    var outstanding := fund.principal - CalculateTotalPaid(txs, fund.id);
    if outstanding < 0.0 then 0.0 else outstanding
  }

  /** `GetFundStatus`: "OPEN" while something is outstanding, "PAID" otherwise. */
  function GetFundStatus(fund: Fund, txs: seq<Transaction>): (s: string)
    ensures s == "OPEN" <==> CalculateOutstanding(fund, txs) > 0.0
    ensures s == "OPEN" || s == "PAID"
  {
    if CalculateOutstanding(fund, txs) > 0.0 then "OPEN" else "PAID"
  }

  /** While the ledger invariant holds, the outstanding amount is exactly the
      unpaid part of the principal, and a fund is PAID exactly when its
      transactions add up to its principal. */
  lemma StatusUnderInvariant(fund: Fund, txs: seq<Transaction>)
    requires CalculateTotalPaid(txs, fund.id) <= fund.principal
    ensures CalculateOutstanding(fund, txs) == fund.principal - CalculateTotalPaid(txs, fund.id)
    ensures GetFundStatus(fund, txs) == "PAID" <==> CalculateTotalPaid(txs, fund.id) == fund.principal
    ensures GetFundStatus(fund, txs) == "OPEN" <==> CalculateTotalPaid(txs, fund.id) < fund.principal
  {
  }

  // ---------------------------------------------------------------------------
  // The transactions of a fund, by date

  predicate SortedByDate(ts: seq<Transaction>) {
    forall i, j :: 0 <= i < j < |ts| ==> ts[i].date <= ts[j].date
  }

  /** Inserts `t` before the first transaction not dated earlier than it. */
  function InsertByDate(t: Transaction, ts: seq<Transaction>): (r: seq<Transaction>)
    requires SortedByDate(ts)
    ensures SortedByDate(r)
    ensures multiset(r) == multiset(ts) + multiset{t}
    ensures Sum(r) == t.amount + Sum(ts)
  {
    if ts == [] || t.date <= ts[0].date then
      InsertFirst(t, ts);
      [t] + ts
    else
      assert ts == [ts[0]] + ts[1..];
      var rest := InsertByDate(t, ts[1..]);
      InsertAfterHead(ts[0], t, ts[1..], rest);
      [ts[0]] + rest
  }

  /** The first case of `InsertByDate`: `t` goes in front. */
  lemma InsertFirst(t: Transaction, ts: seq<Transaction>)
    requires SortedByDate(ts)
    requires ts == [] || t.date <= ts[0].date
    ensures SortedByDate([t] + ts)
    ensures multiset([t] + ts) == multiset(ts) + multiset{t}
    ensures Sum([t] + ts) == t.amount + Sum(ts)
  {
    assert ([t] + ts)[1..] == ts;
    forall i, j | 0 <= i < j < |[t] + ts|
      ensures ([t] + ts)[i].date <= ([t] + ts)[j].date
    {
      if i > 0 {
        assert ([t] + ts)[i] == ts[i - 1];
      }
      assert ([t] + ts)[j] == ts[j - 1];
    }
  }

  /** The second case of `InsertByDate`: the head `h` stays in front of the
      sorted insertion `rest` of `t` into the tail. */
  lemma InsertAfterHead(h: Transaction, t: Transaction, tail: seq<Transaction>, rest: seq<Transaction>)
    requires SortedByDate([h] + tail)
    requires h.date < t.date
    requires SortedByDate(rest)
    requires multiset(rest) == multiset(tail) + multiset{t}
    requires Sum(rest) == t.amount + Sum(tail)
    ensures SortedByDate([h] + rest)
    ensures multiset([h] + rest) == multiset([h] + tail) + multiset{t}
    ensures Sum([h] + rest) == t.amount + Sum([h] + tail)
  {
    assert ([h] + rest)[1..] == rest;
    assert ([h] + tail)[1..] == tail;
    forall k | 0 <= k < |rest|
      ensures h.date <= rest[k].date
    {
      assert rest[k] in multiset(rest);
      if rest[k] != t {
        HeadNotLater(h, tail, rest[k]);
      }
    }
    ConsSorted(h, rest);
  }

  lemma HeadNotLater(h: Transaction, tail: seq<Transaction>, x: Transaction)
    requires SortedByDate([h] + tail)
    requires x in tail
    ensures h.date <= x.date
  {
    var m :| 0 <= m < |tail| && tail[m] == x;
    assert ([h] + tail)[m + 1] == x;
    assert ([h] + tail)[0] == h;
  }

  lemma ConsSorted(h: Transaction, ts: seq<Transaction>)
    requires SortedByDate(ts)
    requires forall k :: 0 <= k < |ts| ==> h.date <= ts[k].date
    ensures SortedByDate([h] + ts)
  {
    forall i, j | 0 <= i < j < |[h] + ts|
      ensures ([h] + ts)[i].date <= ([h] + ts)[j].date
    {
      if i > 0 {
        assert ([h] + ts)[i] == ts[i - 1];
      }
      assert ([h] + ts)[j] == ts[j - 1];
    }
  }

  /** A stable insertion sort by date: transactions with the same date keep their table order. */
  function SortByDate(ts: seq<Transaction>): (r: seq<Transaction>)
    ensures SortedByDate(r)
    ensures multiset(r) == multiset(ts)
    ensures Sum(r) == Sum(ts)
  {
    if ts == [] then []
    else
      assert ts == [ts[0]] + ts[1..];
      InsertByDate(ts[0], SortByDate(ts[1..]))
  }

  /** `GetTransactionsByFundID`: exactly the fund's transactions (with their
      multiplicities), ordered by date ascending; their amounts add up to the
      fund's total paid. */
  function GetTransactionsByFundId(txs: seq<Transaction>, fundId: ObjectId): (r: seq<Transaction>)
    ensures SortedByDate(r)
    ensures forall t :: multiset(r)[t] == if t.fundId == fundId then multiset(txs)[t] else 0
    ensures forall t :: t in r <==> t in txs && t.fundId == fundId
    ensures Sum(r) == CalculateTotalPaid(txs, fundId)
  {
    TotalPaidIsSumOfFundTransactions(txs, fundId);
    var r := SortByDate(Filter(txs, OfFund(fundId)));
    assert forall t :: t in r <==> t in multiset(r);
    r
  }

  // ---------------------------------------------------------------------------
  // The ledger invariant

  /** The default unique index on `_id`. */
  predicate FundIdsUnique(funds: seq<Fund>) {
    forall i, j :: 0 <= i < |funds| && 0 <= j < |funds| && funds[i].id == funds[j].id ==> i == j
  }

  predicate TransactionIdsUnique(txs: seq<Transaction>) {
    forall i, j :: 0 <= i < |txs| && 0 <= j < |txs| && txs[i].id == txs[j].id ==> i == j
  }

  function FundIds(funds: seq<Fund>): set<ObjectId> {
    set f | f in funds :: f.id
  }

  function TransactionIds(txs: seq<Transaction>): set<ObjectId> {
    set t | t in txs :: t.id
  }

  /** Every transaction belongs to an existing fund and pays a positive amount;
      every principal is positive. */
  predicate WellFormed(funds: seq<Fund>, txs: seq<Transaction>) {
    && (forall t :: t in txs ==> t.fundId in FundIds(funds) && t.amount > 0.0)
    && (forall f :: f in funds ==> f.principal > 0.0)
  }

  /** The central rule: for every fund, Σ of its transaction amounts ≤ its principal. */
  predicate PaidWithinPrincipal(funds: seq<Fund>, txs: seq<Transaction>) {
    forall f :: f in funds ==> CalculateTotalPaid(txs, f.id) <= f.principal
  }

  predicate LedgerInvariant(funds: seq<Fund>, txs: seq<Transaction>) {
    && FundIdsUnique(funds)
    && TransactionIdsUnique(txs)
    && WellFormed(funds, txs)
    && PaidWithinPrincipal(funds, txs)
  }

  /** A fund is found by its `_id` together with its owner's `userId`. */
  function FundIndex(funds: seq<Fund>, userId: ObjectId, fundId: ObjectId): (r: Option<nat>)
    ensures r.Some? ==> r.value < |funds| && funds[r.value].id == fundId && funds[r.value].userId == userId
    ensures r.None? <==> forall f :: f in funds ==> !(f.id == fundId && f.userId == userId)
  {
    FirstIndex(funds, (f: Fund) => f.id == fundId && f.userId == userId)
  }

  /** A transaction is found by its `_id` together with its `fundId`. */
  function TransactionIndex(txs: seq<Transaction>, id: ObjectId, fundId: ObjectId): (r: Option<nat>)
    ensures r.Some? ==> r.value < |txs| && txs[r.value].id == id && txs[r.value].fundId == fundId
    ensures r.None? <==> forall t :: t in txs ==> !(t.id == id && t.fundId == fundId)
  {
    FirstIndex(txs, (t: Transaction) => t.id == id && t.fundId == fundId)
  }

  /** With unique ids, the fund at `i` is the only one with its id. */
  lemma OnlyFundWithId(funds: seq<Fund>, i: nat, f: Fund)
    requires FundIdsUnique(funds) && i < |funds|
    requires f in funds && f.id == funds[i].id
    ensures f == funds[i]
  {
    var j :| 0 <= j < |funds| && funds[j] == f;
  }

  /** With unique ids, looking a fund up by its own id and owner finds exactly it. */
  lemma FundIndexOfMember(funds: seq<Fund>, i: nat)
    requires FundIdsUnique(funds) && i < |funds|
    ensures FundIndex(funds, funds[i].userId, funds[i].id) == Some(i)
  {
    assert funds[i] in funds;
  }

  /** Recording a payment that the check lets through keeps the invariant. */
  lemma AddTransactionPreservesInvariant(funds: seq<Fund>, txs: seq<Transaction>, i: nat, t: Transaction)
    requires LedgerInvariant(funds, txs)
    requires i < |funds| && t.fundId == funds[i].id && t.amount > 0.0
    requires t.id !in TransactionIds(txs)
    requires CalculateTotalPaid(txs, t.fundId) + t.amount <= funds[i].principal
    ensures LedgerInvariant(funds, txs + [t])
  {
    var s := txs + [t];
    forall f | f in funds
      ensures CalculateTotalPaid(s, f.id) <= f.principal
    {
      TotalPaidAppend(txs, t, f.id);
      if f.id == t.fundId {
        OnlyFundWithId(funds, i, f);
      }
    }
    assert TransactionIdsUnique(s);
    assert funds[i] in funds;
  }

  /** Replacing a payment of fund `funds[i]` by one the check lets through keeps the invariant. */
  lemma UpdateTransactionPreservesInvariant(funds: seq<Fund>, txs: seq<Transaction>, i: nat, k: nat, t: Transaction)
    requires LedgerInvariant(funds, txs)
    requires i < |funds| && k < |txs| && txs[k].fundId == funds[i].id
    requires t.id == txs[k].id && t.fundId == txs[k].fundId && t.amount > 0.0
    requires CalculateTotalPaid(txs, t.fundId) - txs[k].amount + t.amount <= funds[i].principal
    ensures LedgerInvariant(funds, txs[k := t])
  {
    var s := txs[k := t];
    forall f | f in funds
      ensures CalculateTotalPaid(s, f.id) <= f.principal
    {
      TotalPaidUpdate(txs, k, t, f.id);
      if f.id == t.fundId {
        OnlyFundWithId(funds, i, f);
      }
    }
    assert forall x :: x in s ==> x == t || x in txs;
    assert TransactionIdsUnique(s);
  }

  /** Deleting a payment only lowers a total, so it keeps the invariant. */
  lemma DeleteTransactionPreservesInvariant(funds: seq<Fund>, txs: seq<Transaction>, k: nat)
    requires LedgerInvariant(funds, txs) && k < |txs|
    ensures LedgerInvariant(funds, RemoveAt(txs, k))
    ensures forall f :: CalculateTotalPaid(RemoveAt(txs, k), f) <= CalculateTotalPaid(txs, f)
  {
    var s := RemoveAt(txs, k);
    forall f
      ensures CalculateTotalPaid(s, f) <= CalculateTotalPaid(txs, f)
    {
      TotalPaidRemoveAt(txs, k, f);
      assert txs[k] in txs;
    }
    forall a, b | 0 <= a < |s| && 0 <= b < |s| && s[a].id == s[b].id
      ensures a == b
    {
      var a' := if a < k then a else a + 1;
      var b' := if b < k then b else b + 1;
      assert txs[a'].id == txs[b'].id;
    }
  }

  /** Changing a fund's details keeps the invariant when its id stays, its new
      principal is positive and not below what has been paid. */
  lemma UpdateFundPreservesInvariant(funds: seq<Fund>, txs: seq<Transaction>, i: nat, f: Fund)
    requires LedgerInvariant(funds, txs) && i < |funds|
    requires f.id == funds[i].id && f.principal > 0.0
    requires CalculateTotalPaid(txs, f.id) <= f.principal
    ensures LedgerInvariant(funds[i := f], txs)
  {
    var s := funds[i := f];
    assert FundIds(s) == FundIds(funds) by {
      forall x | x in FundIds(funds) ensures x in FundIds(s) {
        var g :| g in funds && g.id == x;
        var j :| 0 <= j < |funds| && funds[j] == g;
        assert s[j].id == x;
      }
      forall x | x in FundIds(s) ensures x in FundIds(funds) {
        var g :| g in s && g.id == x;
        var j :| 0 <= j < |s| && s[j] == g;
        assert funds[j].id == x;
      }
    }
    forall g | g in s
      ensures g.principal > 0.0 && CalculateTotalPaid(txs, g.id) <= g.principal
    {
      var j :| 0 <= j < |s| && s[j] == g;
      if j != i {
        assert funds[j] in funds;
      }
    }
  }

  /** Creating a fund under a fresh id with a positive principal keeps the invariant,
      and the new fund starts with nothing paid. */
  lemma CreateFundPreservesInvariant(funds: seq<Fund>, txs: seq<Transaction>, f: Fund)
    requires LedgerInvariant(funds, txs)
    requires f.id !in FundIds(funds) && f.principal > 0.0
    ensures LedgerInvariant(funds + [f], txs)
    ensures CalculateTotalPaid(txs, f.id) == 0.0
  {
    var s := funds + [f];
    TotalPaidOfUnreferencedFund(txs, f.id);
    assert FundIds(funds) <= FundIds(s) by {
      forall x | x in FundIds(funds) ensures x in FundIds(s) {
        var g :| g in funds && g.id == x;
        assert g in s;
      }
    }
    assert FundIdsUnique(s);
  }

  lemma IdsUniqueCons(x: Transaction, rest: seq<Transaction>)
    requires TransactionIdsUnique(rest)
    requires forall y :: y in rest ==> y.id != x.id
    ensures TransactionIdsUnique([x] + rest)
  {
    var r := [x] + rest;
    forall a, b | 0 <= a < |r| && 0 <= b < |r| && r[a].id == r[b].id
      ensures a == b
    {
      if a > 0 && b > 0 {
        assert rest[a - 1].id == rest[b - 1].id;
      }
    }
  }

  lemma {:induction false} FilterKeepsIdsUnique(s: seq<Transaction>, p: Transaction -> bool)
    requires TransactionIdsUnique(s)
    ensures TransactionIdsUnique(Filter(s, p))
  {
    if s != [] {
      FilterKeepsIdsUnique(s[1..], p);
      var rest := Filter(s[1..], p);
      if p(s[0]) {
        forall y | y in rest
          ensures y.id != s[0].id
        {
          var j :| 0 <= j < |s[1..]| && s[1..][j] == y;
          assert s[j + 1] == y;
        }
        IdsUniqueCons(s[0], rest);
        assert Filter(s, p) == [s[0]] + rest;
      } else {
        assert Filter(s, p) == rest;
      }
    }
  }

  /** Deleting a fund together with all of its transactions keeps the invariant and
      leaves every other fund's total as it was. */
  lemma DeleteFundPreservesInvariant(funds: seq<Fund>, txs: seq<Transaction>, i: nat)
    requires LedgerInvariant(funds, txs) && i < |funds|
    ensures LedgerInvariant(RemoveAt(funds, i), Filter(txs, NotOfFund(funds[i].id)))
    ensures forall g :: g in RemoveAt(funds, i) ==>
      CalculateTotalPaid(Filter(txs, NotOfFund(funds[i].id)), g.id) == CalculateTotalPaid(txs, g.id)
  {
    var fid := funds[i].id;
    var fs := RemoveAt(funds, i);
    var ts := Filter(txs, NotOfFund(fid));
    FilterKeepsIdsUnique(txs, NotOfFund(fid));
    forall a, b | 0 <= a < |fs| && 0 <= b < |fs| && fs[a].id == fs[b].id
      ensures a == b
    {
      var a' := if a < i then a else a + 1;
      var b' := if b < i then b else b + 1;
      assert funds[a'].id == funds[b'].id;
    }
    forall g | g in fs
      ensures g.id != fid
      ensures CalculateTotalPaid(ts, g.id) == CalculateTotalPaid(txs, g.id)
    {
      var j :| 0 <= j < |fs| && fs[j] == g;
      var j' := if j < i then j else j + 1;
      assert funds[j'] == g;
      TotalPaidWithoutFund(txs, fid, g.id);
    }
    forall t | t in ts
      ensures t.fundId in FundIds(fs)
    {
      var g :| g in funds && g.id == t.fundId;
      var j :| 0 <= j < |funds| && funds[j] == g;
      assert j != i;
      assert g in fs;
    }
  }

  // ---------------------------------------------------------------------------
  // The two collections

  class FundStore {
    var funds: seq<Fund>
    var transactions: seq<Transaction>

    ghost predicate Valid()
      reads this
    {
      LedgerInvariant(funds, transactions)
    }

    constructor ()
      ensures Valid() && funds == [] && transactions == []
    {
      funds := [];
      transactions := [];
    }

    /** `GetFundByID`: the fund with this id, provided it belongs to this user. */
    function GetFundById(userHex: string, fundHex: string): (r: Result<Fund, FundError>)
      reads this
      ensures FromHex(userHex).None? ==> r == Failure(InvalidUserId)
      ensures FromHex(userHex).Some? && FromHex(fundHex).None? ==> r == Failure(InvalidFundId)
      ensures r.Success? ==>
        r.value in funds && Some(r.value.id) == FromHex(fundHex) && Some(r.value.userId) == FromHex(userHex)
      ensures FromHex(userHex).Some? && FromHex(fundHex).Some? ==>
        (r == Failure(FundNotFound) <==>
         forall f :: f in funds ==> !(Some(f.id) == FromHex(fundHex) && Some(f.userId) == FromHex(userHex)))
    {
      match FromHex(userHex)
      case None => Failure(InvalidUserId)
      case Some(userId) =>
        match FromHex(fundHex)
        case None => Failure(InvalidFundId)
        case Some(fundId) =>
          match FundIndex(funds, userId, fundId)
          case None => Failure(FundNotFound)
          case Some(i) => Success(funds[i])
    }

    /** `GetAllFunds`: the user's funds, in table order. */
    function GetAllFunds(userHex: string): (r: Result<seq<Fund>, FundError>)
      reads this
      ensures FromHex(userHex).None? <==> r == Failure(InvalidUserId)
      ensures r.Success? ==> forall f :: f in r.value <==> f in funds && Some(f.userId) == FromHex(userHex)
      ensures r.Success? ==> forall f :: multiset(r.value)[f] ==
                               if Some(f.userId) == FromHex(userHex) then multiset(funds)[f] else 0
      ensures r.Success? ==> r.value == Filter(funds, OwnedBy(FromHex(userHex).value))
    {
      match FromHex(userHex)
      case None => Failure(InvalidUserId)
      case Some(userId) => Success(Filter(funds, OwnedBy(userId)))
    }

    /** `CreateFund`: checks the type and the principal, then inserts a fresh fund
        with no transactions. The `_id` index rejects an id already in use. */
    method CreateFund(userHex: string, req: FundRequest, newId: ObjectId, now: Time) returns (r: Result<Fund, FundError>)
      requires Valid()
      modifies this
      ensures Valid()
      ensures transactions == old(transactions)
      ensures r.Failure? ==> funds == old(funds)
      ensures r.Success? ==> funds == old(funds) + [r.value] && CalculateTotalPaid(transactions, r.value.id) == 0.0
      ensures FromHex(userHex).None? ==> r == Failure(InvalidUserId)
      ensures FromHex(userHex).Some? ==>
        if ParseFundType(req.fundType).None? then r == Failure(InvalidFundType)
        else if req.principal <= 0.0 then r == Failure(PrincipalNotPositive)
        else if newId in FundIds(old(funds)) then r == Failure(DuplicateKey)
        else r == Success(Fund(newId, FromHex(userHex).value, req.personName, ParseFundType(req.fundType).value,
                               req.principal, req.startDate, req.notes, now, now))
    {
      var userId := FromHex(userHex);
      if userId.None? {
        return Failure(InvalidUserId);
      }
      var fundType := ParseFundType(req.fundType);
      if fundType.None? {
        return Failure(InvalidFundType);
      }
      if req.principal <= 0.0 {
        return Failure(PrincipalNotPositive);
      }
      if newId in FundIds(funds) {
        return Failure(DuplicateKey);
      }
      var fund := Fund(newId, userId.value, req.personName, fundType.value,
                       req.principal, req.startDate, req.notes, now, now);
      CreateFundPreservesInvariant(funds, transactions, fund);
      funds := funds + [fund];
      r := Success(fund);
    }

    /** `UpdateFund`: after the ownership check, checks the type, then that the new
        principal is not below the total paid, then that it is positive; then sets
        the editable fields, keeping id, owner and creation time. */
    method UpdateFund(userHex: string, fundHex: string, req: FundRequest, now: Time) returns (r: Result<Fund, FundError>)
      requires Valid()
      modifies this
      ensures Valid()
      ensures transactions == old(transactions)
      ensures r.Failure? ==> funds == old(funds)
      ensures old(GetFundById(userHex, fundHex)).Failure? ==> r == Failure(old(GetFundById(userHex, fundHex)).error)
      ensures old(GetFundById(userHex, fundHex)).Success? ==>
        var fund := old(GetFundById(userHex, fundHex)).value;
        var paid := CalculateTotalPaid(transactions, fund.id);
        if ParseFundType(req.fundType).None? then r == Failure(InvalidFundType)
        else if req.principal < paid then r == Failure(PrincipalBelowTotalPaid(paid))
        else if req.principal <= 0.0 then r == Failure(PrincipalNotPositive)
        else
          && r == Success(fund.(personName := req.personName, fundType := ParseFundType(req.fundType).value,
                                principal := req.principal, startDate := req.startDate, notes := req.notes,
                                updatedAt := now))
          && FundIndex(old(funds), fund.userId, fund.id).Some?
          && funds == old(funds)[FundIndex(old(funds), fund.userId, fund.id).value := r.value]
      ensures r.Success? ==> GetFundById(userHex, fundHex) == r
    {
      var found := GetFundById(userHex, fundHex);
      if found.Failure? {
        return Failure(found.error);
      }
      var fund := found.value;
      var fundType := ParseFundType(req.fundType);
      if fundType.None? {
        return Failure(InvalidFundType);
      }
      var paid := CalculateTotalPaid(transactions, fund.id);
      if req.principal < paid {
        return Failure(PrincipalBelowTotalPaid(paid));
      }
      if req.principal <= 0.0 {
        return Failure(PrincipalNotPositive);
      }
      var i := FundIndex(funds, fund.userId, fund.id).value;
      OnlyFundWithId(funds, i, fund);
      var updated := fund.(personName := req.personName, fundType := fundType.value,
                           principal := req.principal, startDate := req.startDate, notes := req.notes,
                           updatedAt := now);
      UpdateFundPreservesInvariant(funds, transactions, i, updated);
      funds := funds[i := updated];
      r := Success(updated);
      FundIndexOfMember(funds, i);
    }

    /** `DeleteFund`: after the ownership check, deletes every transaction of the
        fund and then the fund itself. */
    method DeleteFund(userHex: string, fundHex: string) returns (r: Outcome<FundError>)
      requires Valid()
      modifies this
      ensures Valid()
      ensures old(GetFundById(userHex, fundHex)).Failure? ==>
        r == Fail(old(GetFundById(userHex, fundHex)).error) && funds == old(funds) && transactions == old(transactions)
      ensures old(GetFundById(userHex, fundHex)).Success? ==>
        var fund := old(GetFundById(userHex, fundHex)).value;
        && r == Pass
        && FundIndex(old(funds), fund.userId, fund.id).Some?
        && funds == RemoveAt(old(funds), FundIndex(old(funds), fund.userId, fund.id).value)
        && transactions == Filter(old(transactions), NotOfFund(fund.id))
        && fund.id !in FundIds(funds)
        && forall g :: g in funds ==> CalculateTotalPaid(transactions, g.id) == old(CalculateTotalPaid(transactions, g.id))
    {
      var found := GetFundById(userHex, fundHex);
      if found.Failure? {
        return Fail(found.error);
      }
      var fund := found.value;
      var i := FundIndex(funds, fund.userId, fund.id).value;
      OnlyFundWithId(funds, i, fund);
      DeleteFundPreservesInvariant(funds, transactions, i);
      transactions := Filter(transactions, NotOfFund(fund.id));
      funds := RemoveAt(funds, i);
      r := Pass;
    }

    /** `AddTransaction`: after the ownership check, rejects a non-positive amount
        and an amount that would take the total above the principal (reaching it
        exactly is allowed), then records the payment. */
    method AddTransaction(userHex: string, fundHex: string, req: TransactionRequest, newId: ObjectId, now: Time)
      returns (r: Result<Transaction, FundError>)
      requires Valid()
      modifies this
      ensures Valid()
      ensures funds == old(funds)
      ensures r.Failure? ==> transactions == old(transactions)
      ensures FromHex(fundHex).None? ==> r == Failure(InvalidFundId)
      ensures FromHex(fundHex).Some? && old(GetFundById(userHex, fundHex)).Failure? ==>
        r == Failure(old(GetFundById(userHex, fundHex)).error)
      ensures FromHex(fundHex).Some? && old(GetFundById(userHex, fundHex)).Success? ==>
        var fund := old(GetFundById(userHex, fundHex)).value;
        var paid := old(CalculateTotalPaid(transactions, fund.id));
        if req.amount <= 0.0 then r == Failure(AmountNotPositive)
        else if paid + req.amount > fund.principal then r == Failure(ExceedsPrincipal(fund.principal - paid))
        else if newId in TransactionIds(old(transactions)) then r == Failure(DuplicateKey)
        else
          && r == Success(Transaction(newId, fund.id, req.amount, req.date, req.note, now))
          && transactions == old(transactions) + [r.value]
          && CalculateTotalPaid(transactions, fund.id) == paid + req.amount
    {
      if FromHex(fundHex).None? {
        return Failure(InvalidFundId);
      }
      var found := GetFundById(userHex, fundHex);
      if found.Failure? {
        return Failure(found.error);
      }
      var fund := found.value;
      if req.amount <= 0.0 {
        return Failure(AmountNotPositive);
      }
      var paid := CalculateTotalPaid(transactions, fund.id);
      if paid + req.amount > fund.principal {
        return Failure(ExceedsPrincipal(fund.principal - paid));
      }
      if newId in TransactionIds(transactions) {
        return Failure(DuplicateKey);
      }
      var t := Transaction(newId, fund.id, req.amount, req.date, req.note, now);
      var i := FundIndex(funds, fund.userId, fund.id).value;
      OnlyFundWithId(funds, i, fund);
      AddTransactionPreservesInvariant(funds, transactions, i, t);
      TotalPaidAppend(transactions, t, fund.id);
      transactions := transactions + [t];
      r := Success(t);
    }

    /** `UpdateTransaction`: after the ownership check, finds the transaction among
        the fund's own, rejects a non-positive amount, and checks the principal with
        the old amount left out of the total; then sets amount, date and note. */
    method UpdateTransaction(userHex: string, fundHex: string, txHex: string, req: TransactionRequest)
      returns (r: Result<Transaction, FundError>)
      requires Valid()
      modifies this
      ensures Valid()
      ensures funds == old(funds)
      ensures r.Failure? ==> transactions == old(transactions)
      ensures FromHex(fundHex).None? ==> r == Failure(InvalidFundId)
      ensures FromHex(fundHex).Some? && FromHex(txHex).None? ==> r == Failure(InvalidTransactionId)
      ensures FromHex(fundHex).Some? && FromHex(txHex).Some? && old(GetFundById(userHex, fundHex)).Failure? ==>
        r == Failure(old(GetFundById(userHex, fundHex)).error)
      ensures FromHex(fundHex).Some? && FromHex(txHex).Some? && old(GetFundById(userHex, fundHex)).Success? ==>
        var fund := old(GetFundById(userHex, fundHex)).value;
        var k := TransactionIndex(old(transactions), FromHex(txHex).value, fund.id);
        if k.None? then r == Failure(TransactionNotFound)
        else if req.amount <= 0.0 then r == Failure(AmountNotPositive)
        else
          var others := old(CalculateTotalPaid(transactions, fund.id)) - old(transactions)[k.value].amount;
          if others + req.amount > fund.principal then r == Failure(ExceedsPrincipal(fund.principal - others))
          else
            && r == Success(old(transactions)[k.value].(amount := req.amount, date := req.date, note := req.note))
            && transactions == old(transactions)[k.value := r.value]
            && CalculateTotalPaid(transactions, fund.id) == others + req.amount
    {
      if FromHex(fundHex).None? {
        return Failure(InvalidFundId);
      }
      if FromHex(txHex).None? {
        return Failure(InvalidTransactionId);
      }
      var found := GetFundById(userHex, fundHex);
      if found.Failure? {
        return Failure(found.error);
      }
      var fund := found.value;
      var k := TransactionIndex(transactions, FromHex(txHex).value, fund.id);
      if k.None? {
        return Failure(TransactionNotFound);
      }
      var existing := transactions[k.value];
      if req.amount <= 0.0 {
        return Failure(AmountNotPositive);
      }
      var others := CalculateTotalPaid(transactions, fund.id) - existing.amount;
      if others + req.amount > fund.principal {
        return Failure(ExceedsPrincipal(fund.principal - others));
      }
      var updated := existing.(amount := req.amount, date := req.date, note := req.note);
      var i := FundIndex(funds, fund.userId, fund.id).value;
      OnlyFundWithId(funds, i, fund);
      UpdateTransactionPreservesInvariant(funds, transactions, i, k.value, updated);
      TotalPaidUpdate(transactions, k.value, updated, fund.id);
      transactions := transactions[k.value := updated];
      r := Success(updated);
    }

    /** `DeleteTransaction`: after the ownership check, deletes the one transaction
        matching both the transaction id and the fund id. */
    method DeleteTransaction(userHex: string, fundHex: string, txHex: string) returns (r: Outcome<FundError>)
      requires Valid()
      modifies this
      ensures Valid()
      ensures funds == old(funds)
      ensures r.Fail? ==> transactions == old(transactions)
      ensures FromHex(fundHex).None? ==> r == Fail(InvalidFundId)
      ensures FromHex(fundHex).Some? && FromHex(txHex).None? ==> r == Fail(InvalidTransactionId)
      ensures FromHex(fundHex).Some? && FromHex(txHex).Some? && old(GetFundById(userHex, fundHex)).Failure? ==>
        r == Fail(old(GetFundById(userHex, fundHex)).error)
      ensures FromHex(fundHex).Some? && FromHex(txHex).Some? && old(GetFundById(userHex, fundHex)).Success? ==>
        var fund := old(GetFundById(userHex, fundHex)).value;
        var k := TransactionIndex(old(transactions), FromHex(txHex).value, fund.id);
        if k.None? then r == Fail(TransactionNotFound)
        else
          && r == Pass
          && transactions == RemoveAt(old(transactions), k.value)
          && CalculateTotalPaid(transactions, fund.id) == old(CalculateTotalPaid(transactions, fund.id)) - old(transactions)[k.value].amount
    {
      if FromHex(fundHex).None? {
        return Fail(InvalidFundId);
      }
      if FromHex(txHex).None? {
        return Fail(InvalidTransactionId);
      }
      var found := GetFundById(userHex, fundHex);
      if found.Failure? {
        return Fail(found.error);
      }
      var fund := found.value;
      var k := TransactionIndex(transactions, FromHex(txHex).value, fund.id);
      if k.None? {
        return Fail(TransactionNotFound);
      }
      DeleteTransactionPreservesInvariant(funds, transactions, k.value);
      TotalPaidRemoveAt(transactions, k.value, fund.id);
      transactions := RemoveAt(transactions, k.value);
      r := Pass;
    }
  }
}
