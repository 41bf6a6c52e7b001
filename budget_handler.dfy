/** The HTTP layer over monthly budgets: which month is asked for, the checks on
    a base-income request, and the response with the remaining balance. */
module BudgetHandler {
  import opened Wrappers
  import opened Strconv
  import opened ObjectIds
  import opened Models
  import opened Http
  import opened BudgetService

  /** The record every budget endpoint answers with. */
  function BudgetResponseOf(b: MonthlyBudget): BudgetResponse {
    BudgetResponse(b.year, b.month, b.baseIncome, b.expenses, Remaining(b.baseIncome, b.expenses))
  }

  /** Builds the response, computing the remaining balance with `CalculateRemaining`. */
  method Respond(status: int, b: MonthlyBudget) returns (reply: Reply<BudgetResponse>)
    ensures reply == Ok(status, BudgetResponseOf(b))
  {
    var remaining := CalculateRemaining(b.baseIncome, b.expenses);
    reply := Ok(status, BudgetResponse(b.year, b.month, b.baseIncome, b.expenses, remaining));
  }

  /** The query checks of `GetBudgetByMonth`, in their order: both parameters
      present, both integers, the month in 1..12. The year is not range-checked. */
  function ParseMonthQuery(yearText: string, monthText: string): (r: Result<(int, int), string>)
    ensures r.Success? <==>
      yearText != "" && monthText != "" && Atoi(yearText).Some? && Atoi(monthText).Some?
      && 1 <= Atoi(monthText).value <= 12
    ensures r.Success? ==> r.value == (Atoi(yearText).value, Atoi(monthText).value)
    ensures yearText == "" || monthText == "" ==> r == Failure("year and month query parameters are required")
    ensures yearText != "" && monthText != "" && Atoi(yearText).None? ==> r == Failure("invalid year parameter")
    ensures yearText != "" && monthText != "" && Atoi(yearText).Some? && Atoi(monthText).None? ==>
      r == Failure("invalid month parameter")
    ensures yearText != "" && monthText != "" && Atoi(yearText).Some? && Atoi(monthText).Some? &&
            !(1 <= Atoi(monthText).value <= 12) ==>
      r == Failure("month must be between 1 and 12")
  {
    if yearText == "" || monthText == "" then Failure("year and month query parameters are required")
    else match Atoi(yearText)
      case None => Failure("invalid year parameter")
      case Some(year) =>
        match Atoi(monthText)
        case None => Failure("invalid month parameter")
        case Some(month) =>
          if month < 1 || month > 12 then Failure("month must be between 1 and 12")
          else Success((year, month))
  }

  /** A query written the canonical way is read back as the month it names, for
      any 64-bit year, zero and negative years included. */
  lemma ParseMonthQueryOfCanonical(year: int, month: int)
    requires MinInt <= year <= MaxInt && 1 <= month <= 12
    ensures ParseMonthQuery(Itoa(year), Itoa(month)) == Success((year, month))
  {
    AtoiItoa(year);
    AtoiItoa(month);
  }

  /** The period check shared by `SetBaseIncome` and the expense handler's `AddExpense`. */
  function ValidatePeriod(year: int, month: int): (r: Option<string>)
    ensures r.None? <==> year > 0 && 1 <= month <= 12
    ensures r.Some? ==> r.value == "valid year and month are required"
  {
    if year <= 0 || month <= 0 || month > 12 then Some("valid year and month are required") else None
  }

  /** The body checks of `SetBaseIncome`: the period first, then a non-negative amount. */
  function ValidateBaseIncome(req: BaseIncomeRequest): (r: Option<string>)
    ensures r.None? <==> req.year > 0 && 1 <= req.month <= 12 && req.amount >= 0.0
    ensures ValidatePeriod(req.year, req.month).Some? ==> r == ValidatePeriod(req.year, req.month)
    ensures ValidatePeriod(req.year, req.month).None? && req.amount < 0.0 ==> r == Some("amount must be non-negative")
  {
    if ValidatePeriod(req.year, req.month).Some? then ValidatePeriod(req.year, req.month)
    else if req.amount < 0.0 then Some("amount must be non-negative")
    else None
  }

  /** How a successful get-or-create for a key leaves the table and what it answers:
      an existing budget is served with the table unchanged, otherwise the new empty
      budget is appended and served. */
  predicate MonthServed(before: seq<MonthlyBudget>, after: seq<MonthlyBudget>, userId: ObjectId,
                        year: int, month: int, newId: ObjectId, now: Time, served: BudgetResponse)
  {
    var k := FindBudget(before, userId, year, month);
    if k.Some? then after == before && served == BudgetResponseOf(before[k.value])
    else
      var created := NewBudget(newId, userId, year, month, now);
      after == before + [created] && served == BudgetResponseOf(created)
  }

  /** The budget of a month, created when missing; every service error is a 500.
      A success answers with the budget the key now finds. */
  method BudgetOfMonth(store: BudgetStore, userHex: string, year: int, month: int, newId: ObjectId, now: Time)
    returns (reply: Reply<BudgetResponse>)
    requires store.Valid()
    modifies store
    ensures store.Valid()
    ensures reply.Ok? <==>
      FromHex(userHex).Some? &&
      (FindBudget(old(store.budgets), FromHex(userHex).value, year, month).Some? || newId !in BudgetIds(old(store.budgets)))
    ensures reply.Error? ==> reply.status == StatusInternalServerError && store.budgets == old(store.budgets)
    ensures FromHex(userHex).None? ==> reply == Error(StatusInternalServerError, Message(InvalidUserId))
    ensures reply.Error? && FromHex(userHex).Some? ==> reply == Error(StatusInternalServerError, Message(DuplicateKey))
    ensures reply.Ok? ==>
      && reply.status == StatusOK
      && var k := FindBudget(store.budgets, FromHex(userHex).value, year, month);
      && k.Some?
      && reply.value == BudgetResponseOf(store.budgets[k.value])
      && reply.value.year == year && reply.value.month == month
      && MonthServed(old(store.budgets), store.budgets, FromHex(userHex).value, year, month, newId, now, reply.value)
  {
    var got := store.GetOrCreateBudget(userHex, year, month, newId, now);
    if got.Failure? {
      return Error(StatusInternalServerError, Message(got.error));
    }
    reply := Respond(StatusOK, got.value);
  }

  /** GET /budget/current, with the clock's year and month passed in. */
  method GetCurrentBudget(store: BudgetStore, userHex: string, clockYear: int, clockMonth: int,
                          newId: ObjectId, now: Time)
    returns (reply: Reply<BudgetResponse>)
    requires store.Valid()
    modifies store
    ensures store.Valid()
    ensures reply.Ok? <==>
      FromHex(userHex).Some? &&
      (FindBudget(old(store.budgets), FromHex(userHex).value, clockYear, clockMonth).Some?
       || newId !in BudgetIds(old(store.budgets)))
    ensures reply.Error? ==> reply.status == StatusInternalServerError && store.budgets == old(store.budgets)
    ensures FromHex(userHex).None? ==> reply == Error(StatusInternalServerError, Message(InvalidUserId))
    ensures reply.Error? && FromHex(userHex).Some? ==> reply == Error(StatusInternalServerError, Message(DuplicateKey))
    ensures reply.Ok? ==>
      && reply.status == StatusOK
      && FromHex(userHex).Some?
      && var k := FindBudget(store.budgets, FromHex(userHex).value, clockYear, clockMonth);
      && k.Some? && reply.value == BudgetResponseOf(store.budgets[k.value])
      && MonthServed(old(store.budgets), store.budgets, FromHex(userHex).value, clockYear, clockMonth, newId, now, reply.value)
  {
    reply := BudgetOfMonth(store, userHex, clockYear, clockMonth, newId, now);
  }

  /** GET /budget?year=YYYY&month=MM. */
  method GetBudgetByMonth(store: BudgetStore, userHex: string, yearText: string, monthText: string,
                          newId: ObjectId, now: Time)
    returns (reply: Reply<BudgetResponse>)
    requires store.Valid()
    modifies store
    ensures store.Valid()
    ensures ParseMonthQuery(yearText, monthText).Failure? ==>
      reply == Error(StatusBadRequest, ParseMonthQuery(yearText, monthText).error) && store.budgets == old(store.budgets)
    ensures reply.Error? && ParseMonthQuery(yearText, monthText).Success? ==>
      reply.status == StatusInternalServerError && store.budgets == old(store.budgets)
    ensures ParseMonthQuery(yearText, monthText).Success? && FromHex(userHex).None? ==>
      reply == Error(StatusInternalServerError, Message(InvalidUserId))
    ensures reply.Error? && ParseMonthQuery(yearText, monthText).Success? && FromHex(userHex).Some? ==>
      reply == Error(StatusInternalServerError, Message(DuplicateKey))
    ensures ParseMonthQuery(yearText, monthText).Success? ==>
      var (year, month) := ParseMonthQuery(yearText, monthText).value;
      (reply.Ok? <==>
        FromHex(userHex).Some? &&
        (FindBudget(old(store.budgets), FromHex(userHex).value, year, month).Some? || newId !in BudgetIds(old(store.budgets))))
    ensures reply.Ok? ==>
      && ParseMonthQuery(yearText, monthText).Success?
      && var (year, month) := ParseMonthQuery(yearText, monthText).value;
      && reply.status == StatusOK
      && FromHex(userHex).Some?
      && var k := FindBudget(store.budgets, FromHex(userHex).value, year, month);
      && k.Some? && reply.value == BudgetResponseOf(store.budgets[k.value])
      && MonthServed(old(store.budgets), store.budgets, FromHex(userHex).value, year, month, newId, now, reply.value)
  {
    var query := ParseMonthQuery(yearText, monthText);
    if query.Failure? {
      return Error(StatusBadRequest, query.error);
    }
    var (year, month) := query.value;
    reply := BudgetOfMonth(store, userHex, year, month, newId, now);
  }

  /** POST /budget/base-income: sets the income of an existing month; the
      remaining balance in the answer is the new income less the month's expenses. */
  method SetBaseIncome(store: BudgetStore, userHex: string, req: BaseIncomeRequest, now: Time)
    returns (reply: Reply<BudgetResponse>)
    requires store.Valid()
    modifies store
    ensures store.Valid()
    ensures reply.Error? ==> store.budgets == old(store.budgets)
    ensures ValidateBaseIncome(req).Some? ==> reply == Error(StatusBadRequest, ValidateBaseIncome(req).value)
    ensures ValidateBaseIncome(req).None? ==>
      && (reply.Ok? <==>
            FromHex(userHex).Some? && FindBudget(old(store.budgets), FromHex(userHex).value, req.year, req.month).Some?)
      && (reply.Error? ==> reply.status == StatusInternalServerError)
      && (FromHex(userHex).None? ==> reply == Error(StatusInternalServerError, Message(InvalidUserId)))
      && (reply.Error? && FromHex(userHex).Some? ==> reply == Error(StatusInternalServerError, Message(NoDocuments)))
    ensures reply.Ok? ==>
      && reply.status == StatusOK
      && var k := FindBudget(store.budgets, FromHex(userHex).value, req.year, req.month);
      && k.Some? && reply.value == BudgetResponseOf(store.budgets[k.value])
      && reply.value.baseIncome == Some(req.amount)
      && reply.value.remaining == Some(req.amount - SumExpenses(reply.value.expenses))
      && var before := FindBudget(old(store.budgets), FromHex(userHex).value, req.year, req.month);
      && before.Some?
      && store.budgets == old(store.budgets)[before.value :=
           old(store.budgets)[before.value].(baseIncome := Some(req.amount), updatedAt := now)]
      && reply.value.expenses == old(store.budgets)[before.value].expenses
  {
    var invalid := ValidateBaseIncome(req);
    if invalid.Some? {
      return Error(StatusBadRequest, invalid.value);
    }
    var updated := store.SetBaseIncome(userHex, req.year, req.month, req.amount, now);
    if updated.Failure? {
      return Error(StatusInternalServerError, Message(updated.error));
    }
    reply := Respond(StatusOK, updated.value);
  }
}
