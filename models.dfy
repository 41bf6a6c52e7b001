/** The documents stored in the collections and the request/response records of
    the HTTP API. Timestamps are opaque instants supplied by the caller; money
    amounts are exact reals. */
module Models {
  import opened Wrappers
  import opened ObjectIds

  /** An instant (`time.Time`), compared only for order and equality. */
  type Time = int

  /** The zero `time.Time`, which `IsZero` recognises. */
  const ZeroTime: Time := 0

  datatype User = User(id: ObjectId, email: string, password: string, createdAt: Time)

  datatype Expense = Expense(id: ObjectId, title: string, amount: real, createdAt: Time)

  /** One budget per user, year and month; `baseIncome` is `None` until it is set. */
  datatype MonthlyBudget = MonthlyBudget(
    id: ObjectId,
    userId: ObjectId,
    year: int,
    month: int,
    baseIncome: Option<real>,
    expenses: seq<Expense>,
    createdAt: Time,
    updatedAt: Time)

  datatype BudgetResponse = BudgetResponse(
    year: int,
    month: int,
    baseIncome: Option<real>,
    expenses: seq<Expense>,
    remaining: Option<real>)

  datatype BaseIncomeRequest = BaseIncomeRequest(amount: real, year: int, month: int)

  datatype ExpenseRequest = ExpenseRequest(title: string, amount: real, year: int, month: int)

  datatype FundType = Borrowed | Given

  function FundTypeName(t: FundType): string {
    match t
    case Borrowed => "BORROWED"
    case Given => "GIVEN"
  }

  /** A request's type text names a fund type only when it is exactly one of the two names. */
  function ParseFundType(s: string): (r: Option<FundType>)
    ensures r.Some? <==> s == "BORROWED" || s == "GIVEN"
    ensures r.Some? ==> FundTypeName(r.value) == s
  {
    if s == "BORROWED" then Some(Borrowed)
    else if s == "GIVEN" then Some(Given)
    else None
  }

  /** A borrowing or lending agreement with another person. */
  datatype Fund = Fund(
    id: ObjectId,
    userId: ObjectId,
    personName: string,
    fundType: FundType,
    principal: real,
    startDate: Time,
    notes: string,
    createdAt: Time,
    updatedAt: Time)

  /** A partial payment against a fund. */
  datatype Transaction = Transaction(
    id: ObjectId,
    fundId: ObjectId,
    amount: real,
    date: Time,
    note: string,
    createdAt: Time)

  /** The body of a create/update fund request; the type is still unchecked text. */
  datatype FundRequest = FundRequest(
    personName: string,
    fundType: string,
    principal: real,
    startDate: Time,
    notes: string)

  datatype TransactionRequest = TransactionRequest(amount: real, date: Time, note: string)

  datatype FundResponse = FundResponse(
    id: string,
    personName: string,
    fundType: FundType,
    principal: real,
    startDate: Time,
    notes: string,
    totalPaid: real,
    outstanding: real,
    status: string,
    transactions: seq<Transaction>,
    createdAt: Time,
    updatedAt: Time)
}
