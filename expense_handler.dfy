/** The HTTP layer over the expenses of a budget. Every service error, the
    not-found one included, is answered with 500. */
module ExpenseHandler {
  import opened Wrappers
  import opened Seqs
  import opened ObjectIds
  import opened Models
  import opened Http
  import opened BudgetService
  import opened BudgetHandler

  const InvalidExpenseMessage: string := "title and amount (positive) are required"

  /** The expense checks of `AddExpense` and `UpdateExpense`. */
  function ValidateExpenseFields(title: string, amount: real): (r: Option<string>)
    ensures r.None? <==> title != "" && amount > 0.0
    ensures r.Some? ==> r.value == InvalidExpenseMessage
  {
    if title == "" || amount <= 0.0 then Some(InvalidExpenseMessage) else None
  }

  /** The body checks of `AddExpense`: the period first, then title and amount. */
  function ValidateNewExpense(req: ExpenseRequest): (r: Option<string>)
    ensures r.None? <==> req.year > 0 && 1 <= req.month <= 12 && req.title != "" && req.amount > 0.0
    ensures ValidatePeriod(req.year, req.month).Some? ==> r == ValidatePeriod(req.year, req.month)
    ensures ValidatePeriod(req.year, req.month).None? && r.Some? ==> r.value == InvalidExpenseMessage
  {
    if ValidatePeriod(req.year, req.month).Some? then ValidatePeriod(req.year, req.month)
    else ValidateExpenseFields(req.title, req.amount)
  }

  /** POST /expenses: 201 with the month's budget, the new expense last and the
      remaining balance lowered by its amount whenever an income is set. */
  method AddExpense(store: BudgetStore, userHex: string, req: ExpenseRequest,
                    newExpenseId: ObjectId, newBudgetId: ObjectId, now: Time)
    returns (reply: Reply<BudgetResponse>)
    requires store.Valid()
    modifies store
    ensures store.Valid()
    ensures reply.Error? ==> store.budgets == old(store.budgets)
    ensures ValidateNewExpense(req).Some? ==> reply == Error(StatusBadRequest, ValidateNewExpense(req).value)
    ensures ValidateNewExpense(req).None? && reply.Error? ==> reply.status == StatusInternalServerError
    ensures ValidateNewExpense(req).None? ==>
      (reply.Ok? <==>
        FromHex(userHex).Some?
        && (FindBudget(old(store.budgets), FromHex(userHex).value, req.year, req.month).Some?
            || newBudgetId !in BudgetIds(old(store.budgets))))
    ensures ValidateNewExpense(req).None? && FromHex(userHex).None? ==>
      reply == Error(StatusInternalServerError, Message(InvalidUserId))
    ensures ValidateNewExpense(req).None? && FromHex(userHex).Some? && reply.Error? ==>
      reply == Error(StatusInternalServerError, Message(DuplicateKey))
    ensures reply.Ok? ==>
      && reply.status == StatusCreated
      && FromHex(userHex).Some?
      && var userId := FromHex(userHex).value;
      && var k := FindBudget(store.budgets, userId, req.year, req.month);
      && k.Some? && reply.value == BudgetResponseOf(store.budgets[k.value])
      && var before := FindBudget(old(store.budgets), userId, req.year, req.month);
      && var prior := if before.Some? then old(store.budgets)[before.value].expenses else [];
      && reply.value.expenses == prior + [Expense(newExpenseId, req.title, req.amount, now)]
      && (before.Some? ==>
            store.budgets == old(store.budgets)[before.value :=
              old(store.budgets)[before.value].(expenses := reply.value.expenses, updatedAt := now)])
      && (before.None? ==>
            store.budgets == old(store.budgets) +
              [NewBudget(newBudgetId, userId, req.year, req.month, now).(expenses := reply.value.expenses)])
      && reply.value.baseIncome == (if before.Some? then old(store.budgets)[before.value].baseIncome else None)
      && (reply.value.baseIncome.Some? ==>
            reply.value.remaining.Some? &&
            reply.value.remaining.value == Remaining(reply.value.baseIncome, prior).value - req.amount)
  {
    var invalid := ValidateNewExpense(req);
    if invalid.Some? {
      return Error(StatusBadRequest, invalid.value);
    }
    var expense := Expense(newExpenseId, req.title, req.amount, now);
    var added := store.AddExpense(userHex, req.year, req.month, expense, newExpenseId, newBudgetId, now);
    if added.Failure? {
      return Error(StatusInternalServerError, Message(added.error));
    }
    ghost var userId := FromHex(userHex).value;
    ghost var before := FindBudget(old(store.budgets), userId, req.year, req.month);
    ghost var prior := if before.Some? then old(store.budgets)[before.value].expenses else [];
    RemainingAfterAppend(added.value.baseIncome, prior, expense);
    reply := Respond(StatusCreated, added.value);
  }

  /** PUT /expenses/:expenseId: only the title and amount reach the service; the
      answer is the budget holding the expense, its remaining balance moved by
      the change in amount. */
  method UpdateExpense(store: BudgetStore, userHex: string, expenseHex: string, req: ExpenseRequest, now: Time)
    returns (reply: Reply<BudgetResponse>)
    requires store.Valid()
    modifies store
    ensures store.Valid()
    ensures reply.Error? ==> store.budgets == old(store.budgets)
    ensures |store.budgets| == |old(store.budgets)|
    ensures ValidateExpenseFields(req.title, req.amount).Some? ==>
      reply == Error(StatusBadRequest, InvalidExpenseMessage)
    ensures ValidateExpenseFields(req.title, req.amount).None? && reply.Error? ==>
      reply.status == StatusInternalServerError
    ensures ValidateExpenseFields(req.title, req.amount).None? && FromHex(userHex).Some? && FromHex(expenseHex).Some? ==>
      (reply.Ok? <==> BudgetWithExpense(old(store.budgets), FromHex(userHex).value, FromHex(expenseHex).value).Some?)
    ensures ValidateExpenseFields(req.title, req.amount).None? ==>
      if FromHex(userHex).None? then reply == Error(StatusInternalServerError, Message(InvalidUserId))
      else if FromHex(expenseHex).None? then reply == Error(StatusInternalServerError, Message(InvalidExpenseId))
      else reply.Error? ==> reply == Error(StatusInternalServerError, ExpenseNotFoundMessage)
    ensures reply.Ok? ==>
      && reply.status == StatusOK
      && FromHex(userHex).Some? && FromHex(expenseHex).Some?
      && var k := BudgetWithExpense(old(store.budgets), FromHex(userHex).value, FromHex(expenseHex).value);
      && k.Some?
      && reply.value == BudgetResponseOf(store.budgets[k.value])
      && var b := old(store.budgets)[k.value];
      && var j := ExpenseIndex(b.expenses, FromHex(expenseHex).value).value;
      && |reply.value.expenses| == |b.expenses|
      && reply.value.expenses == b.expenses[j := b.expenses[j].(title := req.title, amount := req.amount)]
      && store.budgets == old(store.budgets)[k.value := b.(expenses := reply.value.expenses, updatedAt := now)]
      && reply.value.expenses[j].title == req.title && reply.value.expenses[j].amount == req.amount
      && (b.baseIncome.Some? ==>
            reply.value.remaining.Some? &&
            reply.value.remaining.value == Remaining(b.baseIncome, b.expenses).value + b.expenses[j].amount - req.amount)
  {
    var invalid := ValidateExpenseFields(req.title, req.amount);
    if invalid.Some? {
      return Error(StatusBadRequest, invalid.value);
    }
    var changes := Expense(NilObjectId, req.title, req.amount, ZeroTime);
    var updated := store.UpdateExpense(userHex, expenseHex, changes, now);
    if updated.Failure? {
      return Error(StatusInternalServerError, Message(updated.error));
    }
    ghost var k := BudgetWithExpense(old(store.budgets), FromHex(userHex).value, FromHex(expenseHex).value).value;
    ghost var b := old(store.budgets)[k];
    ghost var j := ExpenseIndex(b.expenses, FromHex(expenseHex).value).value;
    RemainingAfterUpdate(b.baseIncome, b.expenses, j, b.expenses[j].(title := req.title, amount := req.amount));
    reply := Respond(StatusOK, updated.value);
  }

  /** DELETE /expenses/:expenseId: the answer is the budget that held the expense,
      now without it. */
  method DeleteExpense(store: BudgetStore, userHex: string, expenseHex: string, now: Time)
    returns (reply: Reply<BudgetResponse>)
    requires store.Valid()
    modifies store
    ensures store.Valid()
    ensures |store.budgets| == |old(store.budgets)|
    ensures reply.Error? ==> reply.status == StatusInternalServerError && store.budgets == old(store.budgets)
    ensures FromHex(userHex).Some? && FromHex(expenseHex).Some? ==>
      (reply.Ok? <==> BudgetWithExpense(old(store.budgets), FromHex(userHex).value, FromHex(expenseHex).value).Some?)
    ensures if FromHex(userHex).None? then reply == Error(StatusInternalServerError, Message(InvalidUserId))
            else if FromHex(expenseHex).None? then reply == Error(StatusInternalServerError, Message(InvalidExpenseId))
            else reply.Error? ==> reply == Error(StatusInternalServerError, ExpenseNotFoundMessage)
    ensures reply.Ok? ==>
      && reply.status == StatusOK
      && FromHex(userHex).Some? && FromHex(expenseHex).Some?
      && var k := BudgetWithExpense(old(store.budgets), FromHex(userHex).value, FromHex(expenseHex).value);
      && k.Some?
      && reply.value == BudgetResponseOf(store.budgets[k.value])
      && var b := old(store.budgets)[k.value];
      && reply.value.expenses == Filter(b.expenses, NotWithId(FromHex(expenseHex).value))
      && store.budgets == old(store.budgets)[k.value := b.(expenses := reply.value.expenses, updatedAt := now)]
      && forall e :: e in reply.value.expenses <==>
           e in old(store.budgets)[k.value].expenses && e.id != FromHex(expenseHex).value
  {
    var deleted := store.DeleteExpense(userHex, expenseHex, now);
    if deleted.Failure? {
      return Error(StatusInternalServerError, Message(deleted.error));
    }
    reply := Respond(StatusOK, deleted.value);
  }
}
