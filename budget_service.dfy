/** Monthly budgets: one document per user, year and month, holding an optional
    base income and a list of expenses. The collection has a unique index on
    (userId, year, month) and the default one on `_id`; `BudgetStore.Valid`
    states both. */
module BudgetService {
  import opened Wrappers
  import opened Seqs
  import opened ObjectIds
  import opened Models

  datatype BudgetError =
    | InvalidUserId
    | InvalidExpenseId
    | ExpenseNotFound
    | NoDocuments
    | DuplicateKey

  const ExpenseNotFoundMessage: string := "expense not found or doesn't belong to user"

  /** The text of `err.Error()`; `NoDocuments` is the driver's own error, which
      `SetBaseIncome` passes on unchanged. */
  function Message(e: BudgetError): (m: string)
    ensures m == ExpenseNotFoundMessage <==> e == ExpenseNotFound
  {
    match e
    case InvalidUserId => "invalid user ID"
    case InvalidExpenseId => "invalid expense ID"
    case ExpenseNotFound => ExpenseNotFoundMessage
    case NoDocuments => "mongo: no documents in result"
    case DuplicateKey => "E11000 duplicate key error"
  }

  // ---------------------------------------------------------------------------
  // Remaining balance

  /** Σ of the expense amounts, accumulated from the first expense on. */
  function SumExpenses(es: seq<Expense>): real {
    if es == [] then 0.0 else SumExpenses(es[..|es| - 1]) + es[|es| - 1].amount
  }

  /** The remaining balance: none while no income is set, otherwise income − Σ expenses. */
  function Remaining(baseIncome: Option<real>, es: seq<Expense>): Option<real> {
    if baseIncome.None? then None else Some(baseIncome.value - SumExpenses(es))
  }

  /** `CalculateRemaining`: subtracts the expenses from the income one at a time. */
  method CalculateRemaining(baseIncome: Option<real>, expenses: seq<Expense>) returns (r: Option<real>)
    ensures r == Remaining(baseIncome, expenses)
  {
    if baseIncome.None? {
      return None;
    }
    var total := baseIncome.value;
    for i := 0 to |expenses|
      invariant total == baseIncome.value - SumExpenses(expenses[..i])
    {
      assert expenses[..i + 1][..i] == expenses[..i];
      total := total - expenses[i].amount;
    }
    assert expenses[..|expenses|] == expenses;
    r := Some(total);
  }

  lemma {:induction false} SumExpensesConcat(a: seq<Expense>, b: seq<Expense>)
    ensures SumExpenses(a + b) == SumExpenses(a) + SumExpenses(b)
  {
    if b == [] {
      assert a + b == a;
    } else {
      assert (a + b)[..|a + b| - 1] == a + b[..|b| - 1];
      SumExpensesConcat(a, b[..|b| - 1]);
    }
  }

  /** Remaining is absent exactly when no income is set; appending an expense
      lowers it by exactly that expense's amount. */
  lemma RemainingAfterAppend(baseIncome: Option<real>, es: seq<Expense>, e: Expense)
    ensures Remaining(baseIncome, es + [e]).None? <==> baseIncome.None?
    ensures baseIncome.Some? ==> Remaining(baseIncome, es + [e]).value == Remaining(baseIncome, es).value - e.amount
  {
    assert (es + [e])[..|es + [e]| - 1] == es;
  }

  /** Changing one expense's amount moves remaining by the difference. */
  lemma RemainingAfterUpdate(baseIncome: Option<real>, es: seq<Expense>, j: nat, e: Expense)
    requires j < |es|
    ensures Remaining(baseIncome, es[j := e]).None? <==> baseIncome.None?
    ensures baseIncome.Some? ==>
      Remaining(baseIncome, es[j := e]).value == Remaining(baseIncome, es).value + es[j].amount - e.amount
  {
    assert es == es[..j] + [es[j]] + es[j + 1..];
    assert es[j := e] == es[..j] + [e] + es[j + 1..];
    SumExpensesConcat(es[..j] + [es[j]], es[j + 1..]);
    SumExpensesConcat(es[..j] + [e], es[j + 1..]);
    assert (es[..j] + [es[j]])[..j] == es[..j];
    assert (es[..j] + [e])[..j] == es[..j];
  }

  // ---------------------------------------------------------------------------
  // The collection

  predicate BudgetIdsUnique(bs: seq<MonthlyBudget>) {
    forall i, j :: 0 <= i < |bs| && 0 <= j < |bs| && bs[i].id == bs[j].id ==> i == j
  }

  predicate IsFor(b: MonthlyBudget, userId: ObjectId, year: int, month: int) {
    b.userId == userId && b.year == year && b.month == month
  }

  /** The unique index on (userId, year, month): at most one budget per key. */
  predicate KeysUnique(bs: seq<MonthlyBudget>) {
    forall i, j :: 0 <= i < |bs| && 0 <= j < |bs| && IsFor(bs[j], bs[i].userId, bs[i].year, bs[i].month) ==> i == j
  }

  function BudgetIds(bs: seq<MonthlyBudget>): set<ObjectId> {
    set b | b in bs :: b.id
  }

  function FindBudget(bs: seq<MonthlyBudget>, userId: ObjectId, year: int, month: int): (r: Option<nat>)
    ensures r.Some? ==> r.value < |bs| && IsFor(bs[r.value], userId, year, month)
    ensures r.Some? ==> forall j :: 0 <= j < r.value ==> !IsFor(bs[j], userId, year, month)
    ensures r.None? <==> forall b :: b in bs ==> !IsFor(b, userId, year, month)
  {
    FirstIndex(bs, (b: MonthlyBudget) => IsFor(b, userId, year, month))
  }

  /** The position of the first expense with this id. */
  function ExpenseIndex(es: seq<Expense>, id: ObjectId): (r: Option<nat>)
    ensures r.Some? ==> r.value < |es| && es[r.value].id == id
    ensures r.Some? ==> forall j :: 0 <= j < r.value ==> es[j].id != id
    ensures r.None? <==> forall e :: e in es ==> e.id != id
  {
    FirstIndex(es, (e: Expense) => e.id == id)
  }

  predicate HasExpense(b: MonthlyBudget, userId: ObjectId, expenseId: ObjectId) {
    b.userId == userId && ExpenseIndex(b.expenses, expenseId).Some?
  }

  /** The first of the user's budgets, in any month, holding an expense with this id. */
  function BudgetWithExpense(bs: seq<MonthlyBudget>, userId: ObjectId, expenseId: ObjectId): (r: Option<nat>)
    ensures r.Some? ==> r.value < |bs| && HasExpense(bs[r.value], userId, expenseId)
    ensures r.Some? ==> forall j :: 0 <= j < r.value ==> !HasExpense(bs[j], userId, expenseId)
    ensures r.None? <==> forall b :: b in bs ==> !HasExpense(b, userId, expenseId)
  {
    FirstIndex(bs, (b: MonthlyBudget) => HasExpense(b, userId, expenseId))
  }

  /** The filter of `DeleteExpense`: every expense whose id is not `id`. */
  function NotWithId(id: ObjectId): Expense -> bool {
    (e: Expense) => e.id != id
  }

  function NewBudget(id: ObjectId, userId: ObjectId, year: int, month: int, now: Time): MonthlyBudget {
    MonthlyBudget(id, userId, year, month, None, [], now, now)
  }

  /** Rewriting the budget a key finds, keeping its key, leaves the key finding it. */
  lemma FindBudgetAfterReplace(bs: seq<MonthlyBudget>, k: nat, b: MonthlyBudget, userId: ObjectId, year: int, month: int)
    requires FindBudget(bs, userId, year, month) == Some(k)
    requires IsFor(b, userId, year, month)
    ensures FindBudget(bs[k := b], userId, year, month) == Some(k)
  {
    assert bs[k := b][k] == b;
  }

  /** Rewriting a budget in place, with its key and id unchanged, keeps both indexes satisfied. */
  lemma ReplacePreservesUniqueness(bs: seq<MonthlyBudget>, k: nat, b: MonthlyBudget)
    requires BudgetIdsUnique(bs) && KeysUnique(bs) && k < |bs|
    requires b.id == bs[k].id && IsFor(b, bs[k].userId, bs[k].year, bs[k].month)
    ensures BudgetIdsUnique(bs[k := b]) && KeysUnique(bs[k := b])
  {
    var s := bs[k := b];
    forall i, j | 0 <= i < |s| && 0 <= j < |s| && IsFor(s[j], s[i].userId, s[i].year, s[i].month)
      ensures i == j
    {
      assert IsFor(bs[j], bs[i].userId, bs[i].year, bs[i].month);
    }
    forall i, j | 0 <= i < |s| && 0 <= j < |s| && s[i].id == s[j].id
      ensures i == j
    {
      assert bs[i].id == bs[j].id;
    }
  }

  /** Inserting a budget under a new id and a new key keeps both indexes satisfied. */
  lemma AppendPreservesUniqueness(bs: seq<MonthlyBudget>, b: MonthlyBudget)
    requires BudgetIdsUnique(bs) && KeysUnique(bs)
    requires b.id !in BudgetIds(bs)
    requires forall c :: c in bs ==> !IsFor(c, b.userId, b.year, b.month)
    ensures BudgetIdsUnique(bs + [b]) && KeysUnique(bs + [b])
  {
    var s := bs + [b];
    assert forall i :: 0 <= i < |bs| ==> bs[i] in bs;
    forall i, j | 0 <= i < |s| && 0 <= j < |s| && IsFor(s[j], s[i].userId, s[i].year, s[i].month)
      ensures i == j
    {
      if i < |bs| && j < |bs| {
        assert IsFor(bs[j], bs[i].userId, bs[i].year, bs[i].month);
      }
    }
    forall i, j | 0 <= i < |s| && 0 <= j < |s| && s[i].id == s[j].id
      ensures i == j
    {
      if i < |bs| && j < |bs| {
        assert bs[i].id == bs[j].id;
      }
    }
  }

  class BudgetStore {
    var budgets: seq<MonthlyBudget>

    ghost predicate Valid()
      reads this
    {
      BudgetIdsUnique(budgets) && KeysUnique(budgets)
    }

    constructor ()
      ensures Valid() && budgets == []
    {
      budgets := [];
    }

    /** `GetOrCreateBudget`: the existing budget for the key, or a new one with no
        income and no expenses. A second call with the same key returns the same
        budget and changes nothing. */
    method GetOrCreateBudget(userHex: string, year: int, month: int, newId: ObjectId, now: Time)
      returns (r: Result<MonthlyBudget, BudgetError>)
      requires Valid()
      modifies this
      ensures Valid()
      ensures FromHex(userHex).None? ==> r == Failure(InvalidUserId) && budgets == old(budgets)
      ensures FromHex(userHex).Some? ==>
        var userId := FromHex(userHex).value;
        var k := FindBudget(old(budgets), userId, year, month);
        if k.Some? then r == Success(old(budgets)[k.value]) && budgets == old(budgets)
        else if newId in BudgetIds(old(budgets)) then r == Failure(DuplicateKey) && budgets == old(budgets)
        else r == Success(NewBudget(newId, userId, year, month, now)) && budgets == old(budgets) + [r.value]
      ensures r.Success? ==>
        var k := FindBudget(budgets, FromHex(userHex).value, year, month);
        k.Some? && budgets[k.value] == r.value
    {
      var userId := FromHex(userHex);
      if userId.None? {
        return Failure(InvalidUserId);
      }
      var k := FindBudget(budgets, userId.value, year, month);
      if k.Some? {
        return Success(budgets[k.value]);
      }
      if newId in BudgetIds(budgets) {
        return Failure(DuplicateKey);
      }
      var b := NewBudget(newId, userId.value, year, month, now);
      assert forall i :: 0 <= i < |budgets| ==> budgets[i] in budgets;
      AppendPreservesUniqueness(budgets, b);
      ghost var before := budgets;
      budgets := budgets + [b];
      r := Success(b);
      assert budgets[|before|] == b;
      assert forall i :: 0 <= i < |before| ==> budgets[i] == before[i];
      assert FindBudget(budgets, userId.value, year, month) == Some(|before|);
    }

    /** `SetBaseIncome`: sets the income of an existing budget (and its update
        time); it never creates a budget. */
    method SetBaseIncome(userHex: string, year: int, month: int, amount: real, now: Time)
      returns (r: Result<MonthlyBudget, BudgetError>)
      requires Valid()
      modifies this
      ensures Valid()
      ensures r.Failure? ==> budgets == old(budgets)
      ensures FromHex(userHex).None? ==> r == Failure(InvalidUserId)
      ensures FromHex(userHex).Some? ==>
        var k := FindBudget(old(budgets), FromHex(userHex).value, year, month);
        if k.None? then r == Failure(NoDocuments)
        else
          && r == Success(old(budgets)[k.value].(baseIncome := Some(amount), updatedAt := now))
          && budgets == old(budgets)[k.value := r.value]
      ensures r.Success? ==>
        var k := FindBudget(budgets, FromHex(userHex).value, year, month);
        k.Some? && budgets[k.value] == r.value
    {
      var userId := FromHex(userHex);
      if userId.None? {
        return Failure(InvalidUserId);
      }
      var k := FindBudget(budgets, userId.value, year, month);
      if k.None? {
        return Failure(NoDocuments);
      }
      var b := budgets[k.value].(baseIncome := Some(amount), updatedAt := now);
      ReplacePreservesUniqueness(budgets, k.value, b);
      FindBudgetAfterReplace(budgets, k.value, b, userId.value, year, month);
      budgets := budgets[k.value := b];
      r := Success(b);
    }

    /** `AddExpense`: gives an expense without an id the fresh id `newExpenseId` and
        one without a creation time `now`, makes sure the budget exists, and appends
        the expense at the end of its list. */
    method AddExpense(userHex: string, year: int, month: int, expense: Expense,
                      newExpenseId: ObjectId, newBudgetId: ObjectId, now: Time)
      returns (r: Result<MonthlyBudget, BudgetError>)
      requires Valid()
      modifies this
      ensures Valid()
      ensures r.Failure? ==> budgets == old(budgets)
      ensures FromHex(userHex).None? ==> r == Failure(InvalidUserId)
      ensures FromHex(userHex).Some? ==>
        var userId := FromHex(userHex).value;
        var k := FindBudget(old(budgets), userId, year, month);
        var added := expense.(id := if expense.id == NilObjectId then newExpenseId else expense.id,
                              createdAt := if expense.createdAt == ZeroTime then now else expense.createdAt);
        if k.Some? then
          && r.Success?
          && r.value == old(budgets)[k.value].(expenses := old(budgets)[k.value].expenses + [added], updatedAt := now)
          && budgets == old(budgets)[k.value := r.value]
        else if newBudgetId in BudgetIds(old(budgets)) then r == Failure(DuplicateKey)
        else
          && r == Success(NewBudget(newBudgetId, userId, year, month, now).(expenses := [added]))
          && budgets == old(budgets) + [r.value]
      ensures r.Success? ==>
        var k := FindBudget(budgets, FromHex(userHex).value, year, month);
        k.Some? && budgets[k.value] == r.value
    {
      var userId := FromHex(userHex);
      if userId.None? {
        return Failure(InvalidUserId);
      }
      var added := expense;
      if added.id == NilObjectId {
        added := added.(id := newExpenseId);
      }
      if added.createdAt == ZeroTime {
        added := added.(createdAt := now);
      }
      var got := GetOrCreateBudget(userHex, year, month, newBudgetId, now);
      if got.Failure? {
        return Failure(got.error);
      }
      var k := FindBudget(budgets, userId.value, year, month).value;
      assert [] + [added] == [added];
      var b := budgets[k].(expenses := budgets[k].expenses + [added], updatedAt := now);
      ReplacePreservesUniqueness(budgets, k, b);
      FindBudgetAfterReplace(budgets, k, b, userId.value, year, month);
      budgets := budgets[k := b];
      r := Success(b);
    }

    /** `UpdateExpense`: in the first of the user's budgets (any month) holding the
        expense, sets the title and amount of its first expense with that id. */
    method UpdateExpense(userHex: string, expenseHex: string, updated: Expense, now: Time)
      returns (r: Result<MonthlyBudget, BudgetError>)
      requires Valid()
      modifies this
      ensures Valid()
      ensures r.Failure? ==> budgets == old(budgets)
      ensures FromHex(userHex).None? ==> r == Failure(InvalidUserId)
      ensures FromHex(userHex).Some? && FromHex(expenseHex).None? ==> r == Failure(InvalidExpenseId)
      ensures FromHex(userHex).Some? && FromHex(expenseHex).Some? ==>
        var expenseId := FromHex(expenseHex).value;
        var k := BudgetWithExpense(old(budgets), FromHex(userHex).value, expenseId);
        if k.None? then r == Failure(ExpenseNotFound)
        else
          var b := old(budgets)[k.value];
          var j := ExpenseIndex(b.expenses, expenseId).value;
          && r == Success(b.(expenses := b.expenses[j := b.expenses[j].(title := updated.title, amount := updated.amount)],
                             updatedAt := now))
          && budgets == old(budgets)[k.value := r.value]
    {
      var userId := FromHex(userHex);
      if userId.None? {
        return Failure(InvalidUserId);
      }
      var expenseId := FromHex(expenseHex);
      if expenseId.None? {
        return Failure(InvalidExpenseId);
      }
      var k := BudgetWithExpense(budgets, userId.value, expenseId.value);
      if k.None? {
        return Failure(ExpenseNotFound);
      }
      var b := budgets[k.value];
      var j := ExpenseIndex(b.expenses, expenseId.value).value;
      var b' := b.(expenses := b.expenses[j := b.expenses[j].(title := updated.title, amount := updated.amount)],
                   updatedAt := now);
      ReplacePreservesUniqueness(budgets, k.value, b');
      budgets := budgets[k.value := b'];
      r := Success(b');
    }

    /** `DeleteExpense`: in the first of the user's budgets holding the expense,
        removes every expense with that id and keeps the others in order. */
    method DeleteExpense(userHex: string, expenseHex: string, now: Time)
      returns (r: Result<MonthlyBudget, BudgetError>)
      requires Valid()
      modifies this
      ensures Valid()
      ensures r.Failure? ==> budgets == old(budgets)
      ensures FromHex(userHex).None? ==> r == Failure(InvalidUserId)
      ensures FromHex(userHex).Some? && FromHex(expenseHex).None? ==> r == Failure(InvalidExpenseId)
      ensures FromHex(userHex).Some? && FromHex(expenseHex).Some? ==>
        var expenseId := FromHex(expenseHex).value;
        var k := BudgetWithExpense(old(budgets), FromHex(userHex).value, expenseId);
        if k.None? then r == Failure(ExpenseNotFound)
        else
          var b := old(budgets)[k.value];
          && r == Success(b.(expenses := Filter(b.expenses, NotWithId(expenseId)), updatedAt := now))
          && budgets == old(budgets)[k.value := r.value]
          && |r.value.expenses| < |b.expenses|
    {
      var userId := FromHex(userHex);
      if userId.None? {
        return Failure(InvalidUserId);
      }
      var expenseId := FromHex(expenseHex);
      if expenseId.None? {
        return Failure(InvalidExpenseId);
      }
      var k := BudgetWithExpense(budgets, userId.value, expenseId.value);
      if k.None? {
        return Failure(ExpenseNotFound);
      }
      var b := budgets[k.value];
      var kept := Filter(b.expenses, NotWithId(expenseId.value));
      var j := ExpenseIndex(b.expenses, expenseId.value).value;
      FilterDrops(b.expenses, NotWithId(expenseId.value), j);
      var b' := b.(expenses := kept, updatedAt := now);
      ReplacePreservesUniqueness(budgets, k.value, b');
      budgets := budgets[k.value := b'];
      r := Success(b');
    }
  }
}
