/** The HTTP layer over the fund ledger: request checks, the status code each
    endpoint gives to each service error, and the response record with the
    computed total paid, outstanding amount, status and dated transactions. */
module FundHandler {
  import opened Wrappers
  import opened ObjectIds
  import opened Models
  import opened Http
  import opened Seqs
  import opened FundService

  // ---------------------------------------------------------------------------
  // Request checks

  /** The field checks of `CreateFund` and `UpdateFund`, in their order. */
  function ValidateFundRequest(req: FundRequest): (r: Option<string>)
    ensures r.None? <==> req.personName != "" && ParseFundType(req.fundType).Some? && req.principal > 0.0
    ensures req.personName == "" ==> r == Some("person name is required")
    ensures req.personName != "" && ParseFundType(req.fundType).None? ==> r == Some("type must be BORROWED or GIVEN")
    ensures req.personName != "" && ParseFundType(req.fundType).Some? && req.principal <= 0.0 ==>
      r == Some("principal amount must be greater than 0")
  {
    if req.personName == "" then Some("person name is required")
    else if req.fundType != "BORROWED" && req.fundType != "GIVEN" then Some("type must be BORROWED or GIVEN")
    else if req.principal <= 0.0 then Some("principal amount must be greater than 0")
    else None
  }

  /** The amount check of `AddTransaction` and `UpdateTransaction`. */
  function ValidateTransactionRequest(req: TransactionRequest): (r: Option<string>)
    ensures r.None? <==> req.amount > 0.0
    ensures r.Some? ==> r.value == "transaction amount must be greater than 0"
  {
    if req.amount <= 0.0 then Some("transaction amount must be greater than 0") else None
  }

  // ---------------------------------------------------------------------------
  // Error statuses

  datatype Route =
    | GetAllFundsRoute
    | GetFundRoute
    | CreateFundRoute
    | UpdateFundRoute
    | DeleteFundRoute
    | AddTransactionRoute
    | UpdateTransactionRoute
    | DeleteTransactionRoute

  /** The endpoints that answer an unexpected error with 500 rather than 400. */
  predicate IsServerErrorRoute(route: Route) {
    route.GetAllFundsRoute? || route.GetFundRoute? || route.DeleteFundRoute? || route.DeleteTransactionRoute?
  }

  /** The status an endpoint gives a service error. Each endpoint compares the
      error's text with the not-found messages it knows about. */
  function ErrorStatus(route: Route, e: FundError): (status: int)
    ensures status == StatusNotFound <==>
      || (e == FundNotFound && !route.GetAllFundsRoute? && !route.CreateFundRoute?)
      || (e == TransactionNotFound && (route.UpdateTransactionRoute? || route.DeleteTransactionRoute?))
    ensures status != StatusNotFound ==>
      status == if IsServerErrorRoute(route) then StatusInternalServerError else StatusBadRequest
  {
    var m := Message(e);
    match route
    case GetAllFundsRoute => StatusInternalServerError
    case CreateFundRoute => StatusBadRequest
    case GetFundRoute | DeleteFundRoute =>
      if m == FundNotFoundMessage then StatusNotFound else StatusInternalServerError
    case UpdateFundRoute | AddTransactionRoute =>
      if m == FundNotFoundMessage then StatusNotFound else StatusBadRequest
    case UpdateTransactionRoute =>
      if m == FundNotFoundMessage || m == TransactionNotFoundMessage then StatusNotFound else StatusBadRequest
    case DeleteTransactionRoute =>
      if m == FundNotFoundMessage || m == TransactionNotFoundMessage then StatusNotFound else StatusInternalServerError
  }

  function ErrorReply<T>(route: Route, e: FundError): Reply<T> {
    Error(ErrorStatus(route, e), Message(e))
  }

  // ---------------------------------------------------------------------------
  // Responses

  /** The response record of a fund, listing `listed` as its transactions. */
  function BuildResponse(fund: Fund, txs: seq<Transaction>, listed: seq<Transaction>): FundResponse {
    FundResponse(Hex(fund.id), fund.personName, fund.fundType, fund.principal, fund.startDate, fund.notes,
                 CalculateTotalPaid(txs, fund.id), CalculateOutstanding(fund, txs), GetFundStatus(fund, txs),
                 listed, fund.createdAt, fund.updatedAt)
  }

  /** The response of every endpoint but `CreateFund`: the fund's own transactions by date. */
  function FundResponseOf(fund: Fund, txs: seq<Transaction>): FundResponse {
    BuildResponse(fund, txs, GetTransactionsByFundId(txs, fund.id))
  }

  /** A fund response names its fund by an id that parses back to it, lists
      exactly that fund's transactions in date order, reports their sum as the
      total paid, and is OPEN exactly while something is outstanding. */
  lemma FundResponseFacts(fund: Fund, txs: seq<Transaction>)
    ensures var r := FundResponseOf(fund, txs);
      && FromHex(r.id) == Some(fund.id)
      && SortedByDate(r.transactions)
      && (forall t :: t in r.transactions <==> t in txs && t.fundId == fund.id)
      && r.totalPaid == Sum(r.transactions)
      && (r.status == "OPEN" <==> r.outstanding > 0.0)
  {
    HexRoundTrip(fund.id);
  }

  /** For a fund of a consistent ledger the response adds up: the total paid lies
      between 0 and the principal, the outstanding amount is the rest of it, and
      the fund is PAID exactly when the total reaches the principal. */
  lemma ResponseUnderInvariant(funds: seq<Fund>, txs: seq<Transaction>, fund: Fund)
    requires LedgerInvariant(funds, txs) && fund in funds
    ensures var r := FundResponseOf(fund, txs);
      && 0.0 <= r.totalPaid <= r.principal
      && r.outstanding == r.principal - r.totalPaid
      && (r.status == "PAID" <==> r.totalPaid == r.principal)
  {
    TotalPaidNonNegative(txs, fund.id);
    StatusUnderInvariant(fund, txs);
    FundResponseFacts(fund, txs);
  }

  // ---------------------------------------------------------------------------
  // Endpoints

  /** The loop of `GetAllFunds`: one response per fund, in the funds' order. */
  method BuildResponses(funds: seq<Fund>, txs: seq<Transaction>) returns (responses: seq<FundResponse>)
    ensures |responses| == |funds|
    ensures forall i :: 0 <= i < |funds| ==> responses[i] == FundResponseOf(funds[i], txs)
  {
    responses := [];
    for i := 0 to |funds|
      invariant |responses| == i
      invariant forall j :: 0 <= j < i ==> responses[j] == FundResponseOf(funds[j], txs)
    {
      responses := responses + [FundResponseOf(funds[i], txs)];
    }
  }

  /** GET /funds: the user's funds in table order, each with its computed values. */
  method GetAllFunds(store: FundStore, userHex: string) returns (reply: Reply<seq<FundResponse>>)
    ensures var found := store.GetAllFunds(userHex);
      found.Failure? ==> reply == ErrorReply(GetAllFundsRoute, found.error)
    ensures var found := store.GetAllFunds(userHex);
      found.Success? ==>
        && reply.Ok? && reply.status == StatusOK
        && |reply.value| == |found.value|
        && forall i :: 0 <= i < |reply.value| ==> reply.value[i] == FundResponseOf(found.value[i], store.transactions)
  {
    var found := store.GetAllFunds(userHex);
    if found.Failure? {
      return ErrorReply(GetAllFundsRoute, found.error);
    }
    var responses := BuildResponses(found.value, store.transactions);
    reply := Ok(StatusOK, responses);
  }

  /** GET /funds/:fundId. */
  function GetFundById(store: FundStore, userHex: string, fundHex: string): (reply: Reply<FundResponse>)
    reads store
    ensures reply.Ok? <==> store.GetFundById(userHex, fundHex).Success?
    ensures reply.Ok? ==>
      reply.status == StatusOK && reply.value == FundResponseOf(store.GetFundById(userHex, fundHex).value, store.transactions)
    ensures reply.Error? ==>
      && reply.message == Message(store.GetFundById(userHex, fundHex).error)
      && (reply.status == StatusNotFound <==> store.GetFundById(userHex, fundHex) == Failure(FundNotFound))
      && (reply.status != StatusNotFound ==> reply.status == StatusInternalServerError)
  {
    match store.GetFundById(userHex, fundHex)
    case Failure(e) => ErrorReply(GetFundRoute, e)
    case Success(fund) => Ok(StatusOK, FundResponseOf(fund, store.transactions))
  }

  /** POST /funds: 201 with the new fund, no transactions and nothing paid yet. */
  method CreateFund(store: FundStore, userHex: string, req: FundRequest, newId: ObjectId, now: Time)
    returns (reply: Reply<FundResponse>)
    requires store.Valid()
    modifies store
    ensures store.Valid()
    ensures store.transactions == old(store.transactions)
    ensures reply.Error? ==> store.funds == old(store.funds)
    ensures ValidateFundRequest(req).Some? ==> reply == Error(StatusBadRequest, ValidateFundRequest(req).value)
    ensures ValidateFundRequest(req).None? ==>
      (reply.Ok? <==> FromHex(userHex).Some? && newId !in FundIds(old(store.funds)))
    ensures ValidateFundRequest(req).None? && reply.Error? ==> reply.status == StatusBadRequest
    ensures ValidateFundRequest(req).None? && FromHex(userHex).None? ==>
      reply == ErrorReply(CreateFundRoute, InvalidUserId)
    ensures ValidateFundRequest(req).None? && FromHex(userHex).Some? && newId in FundIds(old(store.funds)) ==>
      reply == ErrorReply(CreateFundRoute, DuplicateKey)
    ensures reply.Ok? ==>
      && reply.status == StatusCreated
      && |store.funds| == |old(store.funds)| + 1
      && var fund := store.funds[|old(store.funds)|];
      && store.funds == old(store.funds) + [fund]
      && FromHex(userHex).Some? && ParseFundType(req.fundType).Some?
      && fund == Fund(newId, FromHex(userHex).value, req.personName, ParseFundType(req.fundType).value,
                      req.principal, req.startDate, req.notes, now, now)
      && reply.value == BuildResponse(fund, store.transactions, [])
      && reply.value.totalPaid == 0.0
      && reply.value.outstanding == req.principal
      && reply.value.status == "OPEN"
  {
    var invalid := ValidateFundRequest(req);
    if invalid.Some? {
      return Error(StatusBadRequest, invalid.value);
    }
    var created := store.CreateFund(userHex, req, newId, now);
    if created.Failure? {
      return ErrorReply(CreateFundRoute, created.error);
    }
    var fund := created.value;
    reply := Ok(StatusCreated, BuildResponse(fund, store.transactions, []));
  }

  /** PUT /funds/:fundId: 200 with the edited fund, the same record a following GET returns. */
  method UpdateFund(store: FundStore, userHex: string, fundHex: string, req: FundRequest, now: Time)
    returns (reply: Reply<FundResponse>)
    requires store.Valid()
    modifies store
    ensures store.Valid()
    ensures store.transactions == old(store.transactions)
    ensures reply.Error? ==> store.funds == old(store.funds)
    ensures ValidateFundRequest(req).Some? ==> reply == Error(StatusBadRequest, ValidateFundRequest(req).value)
    ensures ValidateFundRequest(req).None? ==>
      (reply == Error(StatusNotFound, FundNotFoundMessage) <==> old(store.GetFundById(userHex, fundHex)) == Failure(FundNotFound))
    ensures ValidateFundRequest(req).None? ==>
      (reply.Ok? <==>
        && old(store.GetFundById(userHex, fundHex)).Success?
        && req.principal >= CalculateTotalPaid(store.transactions, old(store.GetFundById(userHex, fundHex)).value.id))
    ensures reply.Error? ==> reply.status == StatusBadRequest || reply.status == StatusNotFound
    ensures ValidateFundRequest(req).None? && old(store.GetFundById(userHex, fundHex)).Failure? ==>
      reply == ErrorReply(UpdateFundRoute, old(store.GetFundById(userHex, fundHex)).error)
    ensures ValidateFundRequest(req).None? && old(store.GetFundById(userHex, fundHex)).Success? ==>
      var paid := CalculateTotalPaid(store.transactions, old(store.GetFundById(userHex, fundHex)).value.id);
      req.principal < paid ==> reply == ErrorReply(UpdateFundRoute, PrincipalBelowTotalPaid(paid))
    ensures reply.Ok? ==>
      && reply.status == StatusOK
      && store.GetFundById(userHex, fundHex).Success?
      && reply.value == FundResponseOf(store.GetFundById(userHex, fundHex).value, store.transactions)
      && old(store.GetFundById(userHex, fundHex)).Success?
      && var before := old(store.GetFundById(userHex, fundHex)).value;
      && ParseFundType(req.fundType).Some?
      && var after := before.(personName := req.personName, fundType := ParseFundType(req.fundType).value,
                              principal := req.principal, startDate := req.startDate, notes := req.notes,
                              updatedAt := now);
      && store.GetFundById(userHex, fundHex).value == after
      && FundIndex(old(store.funds), before.userId, before.id).Some?
      && store.funds == old(store.funds)[FundIndex(old(store.funds), before.userId, before.id).value := after]
      && reply.value.personName == req.personName
      && reply.value.principal == req.principal
      && reply.value.startDate == req.startDate
      && reply.value.notes == req.notes
      && FundTypeName(reply.value.fundType) == req.fundType
  {
    var invalid := ValidateFundRequest(req);
    if invalid.Some? {
      return Error(StatusBadRequest, invalid.value);
    }
    var updated := store.UpdateFund(userHex, fundHex, req, now);
    if updated.Failure? {
      return ErrorReply(UpdateFundRoute, updated.error);
    }
    reply := Ok(StatusOK, FundResponseOf(updated.value, store.transactions));
  }

  /** DELETE /funds/:fundId: afterwards the fund is gone, so a GET of it is a 404. */
  method DeleteFund(store: FundStore, userHex: string, fundHex: string) returns (reply: Reply<string>)
    requires store.Valid()
    modifies store
    ensures store.Valid()
    ensures reply.Ok? <==> old(store.GetFundById(userHex, fundHex)).Success?
    ensures reply.Ok? ==>
      && reply == Ok(StatusOK, "fund deleted successfully")
      && var fund := old(store.GetFundById(userHex, fundHex)).value;
      && FundIndex(old(store.funds), fund.userId, fund.id).Some?
      && store.funds == RemoveAt(old(store.funds), FundIndex(old(store.funds), fund.userId, fund.id).value)
      && store.transactions == Filter(old(store.transactions), NotOfFund(fund.id))
      && store.GetFundById(userHex, fundHex) == Failure(FundNotFound)
      && forall t :: t in store.transactions ==> t.fundId != old(store.GetFundById(userHex, fundHex)).value.id
    ensures old(store.GetFundById(userHex, fundHex)).Failure? ==>
      reply == ErrorReply(DeleteFundRoute, old(store.GetFundById(userHex, fundHex)).error)
    ensures reply.Error? ==>
      && store.funds == old(store.funds) && store.transactions == old(store.transactions)
      && (reply.status == StatusNotFound <==> old(store.GetFundById(userHex, fundHex)) == Failure(FundNotFound))
      && (reply.status != StatusNotFound ==> reply.status == StatusInternalServerError)
  {
    var deleted := store.DeleteFund(userHex, fundHex);
    if deleted.Fail? {
      return ErrorReply(DeleteFundRoute, deleted.error);
    }
    reply := Ok(StatusOK, "fund deleted successfully");
  }

  /** POST /funds/:fundId/transactions: 201 with the fund, whose total paid has
      risen by exactly the recorded amount. */
  method AddTransaction(store: FundStore, userHex: string, fundHex: string, req: TransactionRequest,
                        newId: ObjectId, now: Time)
    returns (reply: Reply<FundResponse>)
    requires store.Valid()
    modifies store
    ensures store.Valid()
    ensures store.funds == old(store.funds)
    ensures reply.Error? ==> store.transactions == old(store.transactions)
    ensures ValidateTransactionRequest(req).Some? ==> reply == Error(StatusBadRequest, ValidateTransactionRequest(req).value)
    ensures ValidateTransactionRequest(req).None? ==>
      (reply == Error(StatusNotFound, FundNotFoundMessage) <==> old(store.GetFundById(userHex, fundHex)) == Failure(FundNotFound))
    ensures ValidateTransactionRequest(req).None? ==>
      (reply.Ok? <==>
        && old(store.GetFundById(userHex, fundHex)).Success?
        && var fund := old(store.GetFundById(userHex, fundHex)).value;
        && old(CalculateTotalPaid(store.transactions, fund.id)) + req.amount <= fund.principal
        && newId !in TransactionIds(old(store.transactions)))
    ensures ValidateTransactionRequest(req).None? ==>
      if FromHex(fundHex).None? then reply == ErrorReply(AddTransactionRoute, InvalidFundId)
      else if old(store.GetFundById(userHex, fundHex)).Failure? then
        reply == ErrorReply(AddTransactionRoute, old(store.GetFundById(userHex, fundHex)).error)
      else
        var fund := old(store.GetFundById(userHex, fundHex)).value;
        var paid := old(CalculateTotalPaid(store.transactions, fund.id));
        if paid + req.amount > fund.principal then
          reply == ErrorReply(AddTransactionRoute, ExceedsPrincipal(fund.principal - paid))
        else newId in TransactionIds(old(store.transactions)) ==> reply == ErrorReply(AddTransactionRoute, DuplicateKey)
    ensures reply.Error? ==> reply.status == StatusBadRequest || reply.status == StatusNotFound
    ensures reply.Ok? ==>
      && reply.status == StatusCreated
      && var fund := store.GetFundById(userHex, fundHex).value;
      && store.GetFundById(userHex, fundHex).Success?
      && reply.value == FundResponseOf(fund, store.transactions)
      && store.transactions == old(store.transactions) + [Transaction(newId, fund.id, req.amount, req.date, req.note, now)]
      && reply.value.totalPaid == old(CalculateTotalPaid(store.transactions, fund.id)) + req.amount
      && Transaction(newId, fund.id, req.amount, req.date, req.note, now) in reply.value.transactions
  {
    var invalid := ValidateTransactionRequest(req);
    if invalid.Some? {
      return Error(StatusBadRequest, invalid.value);
    }
    var added := store.AddTransaction(userHex, fundHex, req, newId, now);
    if added.Failure? {
      return ErrorReply(AddTransactionRoute, added.error);
    }
    var fund := store.GetFundById(userHex, fundHex).value;
    reply := Ok(StatusCreated, FundResponseOf(fund, store.transactions));
  }

  /** PUT /funds/:fundId/transactions/:transactionId: 200 with the fund after the change. */
  method UpdateTransaction(store: FundStore, userHex: string, fundHex: string, txHex: string, req: TransactionRequest)
    returns (reply: Reply<FundResponse>)
    requires store.Valid()
    modifies store
    ensures store.Valid()
    ensures store.funds == old(store.funds)
    ensures reply.Error? ==> store.transactions == old(store.transactions)
    ensures ValidateTransactionRequest(req).Some? ==> reply == Error(StatusBadRequest, ValidateTransactionRequest(req).value)
    ensures reply.Error? ==>
      && (reply.status == StatusNotFound <==>
            reply.message == FundNotFoundMessage || reply.message == TransactionNotFoundMessage)
      && (reply.status == StatusBadRequest || reply.status == StatusNotFound)
    ensures ValidateTransactionRequest(req).None? ==>
      if FromHex(fundHex).None? then reply == ErrorReply(UpdateTransactionRoute, InvalidFundId)
      else if FromHex(txHex).None? then reply == ErrorReply(UpdateTransactionRoute, InvalidTransactionId)
      else if old(store.GetFundById(userHex, fundHex)).Failure? then
        reply == ErrorReply(UpdateTransactionRoute, old(store.GetFundById(userHex, fundHex)).error)
      else
        var fund := old(store.GetFundById(userHex, fundHex)).value;
        var k := TransactionIndex(old(store.transactions), FromHex(txHex).value, fund.id);
        if k.None? then reply == ErrorReply(UpdateTransactionRoute, TransactionNotFound)
        else
          var others := old(CalculateTotalPaid(store.transactions, fund.id)) - old(store.transactions)[k.value].amount;
          others + req.amount > fund.principal ==>
            reply == ErrorReply(UpdateTransactionRoute, ExceedsPrincipal(fund.principal - others))
    ensures ValidateTransactionRequest(req).None? && FromHex(fundHex).Some? && FromHex(txHex).Some? ==>
      (reply == Error(StatusNotFound, FundNotFoundMessage) <==> old(store.GetFundById(userHex, fundHex)) == Failure(FundNotFound))
    ensures ValidateTransactionRequest(req).None? && FromHex(fundHex).Some? && FromHex(txHex).Some?
            && old(store.GetFundById(userHex, fundHex)).Success? ==>
      var fund := old(store.GetFundById(userHex, fundHex)).value;
      var k := TransactionIndex(old(store.transactions), FromHex(txHex).value, fund.id);
      && (reply == Error(StatusNotFound, TransactionNotFoundMessage) <==> k.None?)
      && (k.Some? ==>
            var others := old(CalculateTotalPaid(store.transactions, fund.id)) - old(store.transactions)[k.value].amount;
            && (reply.Ok? <==> others + req.amount <= fund.principal)
            && (reply.Ok? ==>
                  && store.transactions == old(store.transactions)[k.value :=
                       old(store.transactions)[k.value].(amount := req.amount, date := req.date, note := req.note)]
                  && reply.value.totalPaid == others + req.amount))
    ensures reply.Ok? ==>
      && reply.status == StatusOK
      && store.GetFundById(userHex, fundHex).Success?
      && var fund := store.GetFundById(userHex, fundHex).value;
      && reply.value == FundResponseOf(fund, store.transactions)
      && reply.value.totalPaid <= fund.principal
  {
    var invalid := ValidateTransactionRequest(req);
    if invalid.Some? {
      return Error(StatusBadRequest, invalid.value);
    }
    var updated := store.UpdateTransaction(userHex, fundHex, txHex, req);
    if updated.Failure? {
      return ErrorReply(UpdateTransactionRoute, updated.error);
    }
    var fund := store.GetFundById(userHex, fundHex).value;
    reply := Ok(StatusOK, FundResponseOf(fund, store.transactions));
  }

  /** DELETE /funds/:fundId/transactions/:transactionId: 200 with the fund, whose
      total paid has dropped by the deleted amount. */
  method DeleteTransaction(store: FundStore, userHex: string, fundHex: string, txHex: string)
    returns (reply: Reply<FundResponse>)
    requires store.Valid()
    modifies store
    ensures store.Valid()
    ensures store.funds == old(store.funds)
    ensures reply.Error? ==> store.transactions == old(store.transactions)
    ensures reply.Error? ==>
      && (reply.status == StatusNotFound <==>
            reply.message == FundNotFoundMessage || reply.message == TransactionNotFoundMessage)
      && (reply.status == StatusInternalServerError || reply.status == StatusNotFound)
    ensures FromHex(fundHex).None? ==> reply == ErrorReply(DeleteTransactionRoute, InvalidFundId)
    ensures FromHex(fundHex).Some? && FromHex(txHex).None? ==> reply == ErrorReply(DeleteTransactionRoute, InvalidTransactionId)
    ensures FromHex(fundHex).Some? && FromHex(txHex).Some? && old(store.GetFundById(userHex, fundHex)).Failure? ==>
      reply == ErrorReply(DeleteTransactionRoute, old(store.GetFundById(userHex, fundHex)).error)
    ensures FromHex(fundHex).Some? && FromHex(txHex).Some? && old(store.GetFundById(userHex, fundHex)).Success? &&
            TransactionIndex(old(store.transactions), FromHex(txHex).value,
                             old(store.GetFundById(userHex, fundHex)).value.id).None? ==>
      reply == ErrorReply(DeleteTransactionRoute, TransactionNotFound)
    ensures FromHex(fundHex).Some? && FromHex(txHex).Some? ==>
      (reply == Error(StatusNotFound, FundNotFoundMessage) <==> old(store.GetFundById(userHex, fundHex)) == Failure(FundNotFound))
    ensures FromHex(fundHex).Some? && FromHex(txHex).Some? && old(store.GetFundById(userHex, fundHex)).Success? ==>
      var fund := old(store.GetFundById(userHex, fundHex)).value;
      var k := TransactionIndex(old(store.transactions), FromHex(txHex).value, fund.id);
      && (reply.Ok? <==> k.Some?)
      && (reply.Ok? ==>
            && reply.status == StatusOK
            && reply.value == FundResponseOf(fund, store.transactions)
            && store.transactions == RemoveAt(old(store.transactions), k.value)
            && reply.value.totalPaid == old(CalculateTotalPaid(store.transactions, fund.id)) - old(store.transactions)[k.value].amount)
  {
    var deleted := store.DeleteTransaction(userHex, fundHex, txHex);
    if deleted.Fail? {
      return ErrorReply(DeleteTransactionRoute, deleted.error);
    }
    var fund := store.GetFundById(userHex, fundHex).value;
    reply := Ok(StatusOK, FundResponseOf(fund, store.transactions));
  }
}
