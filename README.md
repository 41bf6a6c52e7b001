# finance-app ledger and budget rules in Dafny

finance-app is a personal-finance HTTP backend. It stores users, monthly budgets with their
expenses, and "funds" (money borrowed from or lent to a person) with their repayment
transactions in MongoDB collections. This project models the bookkeeping rules that the
services and handlers layer over those collections, and proves them.

- Every collection is an in-memory table: a `seq` field of a class (`FundStore`, `BudgetStore`,
  `UserStore`), kept in natural (insertion) order. That order is what `FindOne` and
  `FindOneAndUpdate` without a sort see first.
- The service methods (`fund_service.go`, `budget_service.go`, `user_service.go`) are methods
  on those classes. Each states its complete new state, its result and every error path.
- The fund ledger's central invariant is `FundService.LedgerInvariant`: ids are unique, every
  transaction belongs to an existing fund, amounts are positive, every principal is positive,
  and for every fund the sum of its transaction amounts is at most its principal. Every
  mutating method keeps it as part of `Valid()`. One preservation lemma per mutation shows why.
- The budget table keeps one budget per (user, year, month), and the user table keeps emails
  unique. The source gets both from unique indexes; here they are class invariants.
- The handlers are functions (validation, error→status mapping, response assembly) and
  methods that call the store. Each reply is tied to the store state it reports.
- ObjectIDs are numbers below 16^24 with a concrete 24-digit hex parser (`ObjectIds.FromHex`)
  and encoder. `strconv.Atoi` is modelled for the query parameters of `GetBudgetByMonth`.
- Amounts are `real`, so sums are exact.
- Fresh ObjectIDs, the clock, JWT verification and password hashing are parameters.
- An insert whose fresh `_id` is already in the table fails with `DuplicateKey`, as MongoDB's
  default `_id` index does.

Modules, one per file: `Wrappers`, `Seqs`, `ObjectIds`, `Strconv`, `Models`, `Http`,
`FundService`, `BudgetService`, `UserService`, `FundHandler`, `BudgetHandler`,
`ExpenseHandler`, `Auth` (middleware.dfy) and `TimeUtils`.

## Model

| member | source | states |
|---|---|---|
| Seqs.FilterConcat | internal/services/budget_service.go:211-234 | filtering a table keeps its order: the filter of a concatenation is the concatenation of the filters (used for the owner filter of `GetAllFunds` and the `$pull` of `DeleteExpense`) |
| ObjectIds.FromHex | internal/services/fund_service.go:127-135 | an id string parses exactly when it is 24 hex digits (`ObjectIDFromHex`); every "invalid … ID" error path is guarded by it |
| ObjectIds.HexRoundTrip | internal/handlers/fund_handler.go:129 | rendering an id as hex (`Hex()`) and parsing it back gives the same id |
| Strconv.Atoi | internal/handlers/budget_handler.go:60-72 | an accepted query value is a well-formed optionally signed decimal within the 64-bit range |
| Strconv.AtoiItoa | internal/handlers/budget_handler.go:60-72 | every 64-bit integer written in decimal is parsed back to itself |
| Models.ParseFundType | internal/models/models.go:77-83 | only "BORROWED" and "GIVEN" are fund types, and each parses to the type of that name |
| FundService.Message | internal/services/fund_service.go:143-148 | the "fund not found…" and "transaction not found…" texts belong to exactly the FundNotFound and TransactionNotFound errors, which the handlers match on |
| FundService.TotalPaidConcat | internal/services/fund_service.go:47-74 | total paid over two tables is the sum of the two totals |
| FundService.TotalPaidAppend | internal/services/fund_service.go:47-74 | inserting one transaction changes a fund's total by that transaction's amount when it belongs to the fund, and by nothing otherwise |
| FundService.TotalPaidUpdate | internal/services/fund_service.go:47-74 | replacing one transaction changes a total by the new contribution minus the old one |
| FundService.TotalPaidRemoveAt | internal/services/fund_service.go:47-74 | deleting one transaction lowers a total by that transaction's contribution |
| FundService.TotalPaidWithoutFund | internal/services/fund_service.go:279-292 | after the cascade that drops fund g's transactions, g's total is 0 and every other fund's total is unchanged |
| FundService.TotalPaidOfUnreferencedFund | internal/services/fund_service.go:57-73 | a fund without transactions has total paid 0 |
| FundService.TotalPaidNonNegative | internal/services/fund_service.go:47-74 | with positive amounts, every total paid is at least 0 |
| FundService.TotalPaidIsSumOfFundTransactions | internal/services/fund_service.go:47-74 | total paid equals the sum of amounts of exactly the transactions whose fundId matches |
| FundService.CalculateOutstanding | internal/services/fund_service.go:77-89 | outstanding is max(0, principal − totalPaid) |
| FundService.GetFundStatus | internal/services/fund_service.go:92-102 | status is "OPEN" exactly when outstanding > 0, and otherwise "PAID" |
| FundService.StatusUnderInvariant | internal/services/fund_service.go:77-102 | when paid ≤ principal, outstanding is principal − paid, and the fund is PAID exactly when paid equals principal |
| FundService.InsertByDate | internal/services/fund_service.go:298-311 | inserting into a date-sorted list keeps it sorted and adds exactly that element |
| FundService.SortByDate | internal/services/fund_service.go:298-311 | the result is sorted by date ascending and is a permutation of the input |
| FundService.GetTransactionsByFundId | internal/services/fund_service.go:298-311 | the result holds exactly the fund's transactions, with multiplicity, sorted by date ascending, and sums to the fund's total paid |
| FundService.FundIndex | internal/services/fund_service.go:137-148 | a fund is found only by matching both its id and its owner; not found exactly when no such fund exists |
| FundService.TransactionIndex | internal/services/fund_service.go:378-390 | a transaction is found only by matching both its id and its fundId; not found exactly when none matches |
| FundService.OnlyFundWithId | internal/services/fund_service.go:137-148 | with unique ids, a fund is determined by its id |
| FundService.FundIndexOfMember | internal/services/fund_service.go:137-148 | with unique ids, the lookup by (owner, id) of a stored fund finds that fund's position |
| FundService.CreateFundPreservesInvariant | internal/services/fund_service.go:154-189 | appending a fund with a new id and positive principal keeps the ledger invariant, and the new fund has paid 0 |
| FundService.UpdateFundPreservesInvariant | internal/services/fund_service.go:220-228 | replacing a fund by one with the same id and a positive principal not below its total paid keeps the ledger invariant |
| FundService.DeleteFundPreservesInvariant | internal/services/fund_service.go:279-292 | removing a fund and every transaction of it keeps the ledger invariant and leaves every remaining fund's total paid unchanged |
| FundService.AddTransactionPreservesInvariant | internal/services/fund_service.go:326-357 | appending a positive transaction with a new id whose fund's total plus amount is at most the principal keeps the ledger invariant |
| FundService.UpdateTransactionPreservesInvariant | internal/services/fund_service.go:393-434 | replacing a transaction's amount when total − old + new ≤ principal keeps the ledger invariant |
| FundService.DeleteTransactionPreservesInvariant | internal/services/fund_service.go:455-478 | removing one transaction keeps the ledger invariant and never raises any fund's total |
| FundService.IdsUniqueCons | internal/services/fund_service.go:280-289 | prepending a transaction whose id is new keeps transaction ids unique |
| FundService.FilterKeepsIdsUnique | internal/services/fund_service.go:280-289 | a cascade delete (a filter) keeps transaction ids unique |
| FundService.FundStore.constructor | internal/services/fund_service.go:20-44 | a new store has empty fund and transaction tables and satisfies the invariant |
| FundService.FundStore.GetFundById | internal/services/fund_service.go:126-151 | invalid user id, then invalid fund id, are reported first; a found fund is in the table with both ids matching; FundNotFound exactly when the user owns no fund with that id |
| FundService.FundStore.GetAllFunds | internal/services/fund_service.go:105-123 | InvalidUserId exactly for a bad hex; otherwise exactly the user's funds, with multiplicity, as the filter of the table by owner, which keeps table order (Seqs.FilterConcat) |
| FundService.FundStore.CreateFund | internal/services/fund_service.go:154-189 | checks, in order, user id, fund type, principal > 0 and a free id; on success exactly one fund is appended, with that user and type, createdAt = updatedAt = now, and no transactions; transactions are untouched and the invariant holds |
| FundService.FundStore.UpdateFund | internal/services/fund_service.go:192-259 | the lookup errors come first; then the type check, then principal ≥ totalPaid, then principal > 0; on success only personName, type, principal, startDate, notes and updatedAt of that one fund change (id, userId and createdAt stay); a following lookup returns the updated fund; transactions are untouched and the invariant holds |
| FundService.FundStore.DeleteFund | internal/services/fund_service.go:262-295 | a lookup failure changes nothing; otherwise the fund is removed, exactly its transactions are removed, its id is gone, and every remaining fund's total is unchanged |
| FundService.FundStore.AddTransaction | internal/services/fund_service.go:314-358 | checks fund id, ownership, amount > 0, then totalPaid + amount ≤ principal (equality accepted), reporting the remaining balance when exceeded; on success exactly one transaction of that fund is appended, total paid rises by exactly the amount, funds are untouched, and the invariant holds |
| FundService.FundStore.UpdateTransaction | internal/services/fund_service.go:361-435 | the transaction must match both its id and the fund ("transaction not found or doesn't belong to fund" otherwise); the check is total − old amount + new ≤ principal; on success only that one transaction's amount, date and note change, and the fund's total paid is the others plus the new amount |
| FundService.FundStore.DeleteTransaction | internal/services/fund_service.go:438-479 | removes exactly the one transaction matching both id and fundId, lowering the fund's total by its amount; a failure changes nothing |
| BudgetService.Message | internal/services/budget_service.go:187-190 | the "expense not found or doesn't belong to user" text belongs to exactly the ExpenseNotFound error |
| BudgetService.CalculateRemaining | internal/services/budget_service.go:238-249 | the loop computes none when there is no base income, and otherwise income − Σ expense amounts |
| BudgetService.SumExpensesConcat | internal/services/budget_service.go:243-246 | the expense sum of two lists is the sum of the two sums |
| BudgetService.RemainingAfterAppend | internal/services/budget_service.go:238-249 | appending an expense lowers remaining by exactly its amount, and remaining is absent exactly when income is |
| BudgetService.RemainingAfterUpdate | internal/services/budget_service.go:238-249 | changing one expense's amount shifts remaining by old amount − new amount |
| BudgetService.FindBudget | internal/services/budget_service.go:43-50 | finds the first budget of (user, year, month); not found exactly when the table holds none |
| BudgetService.ExpenseIndex | internal/services/budget_service.go:172-179 | the first expense with that id; not found exactly when none has it |
| BudgetService.BudgetWithExpense | internal/services/budget_service.go:172-179 | the first budget of the user, in any month, that holds an expense with that id; none exactly when no budget of the user has it |
| BudgetService.FindBudgetAfterReplace | internal/services/budget_service.go:86-107 | replacing the found budget by one with the same key keeps the key finding it at the same position |
| BudgetService.ReplacePreservesUniqueness | internal/services/budget_service.go:22-31 | replacing a budget by one with the same id and key keeps ids and (user, year, month) keys unique |
| BudgetService.AppendPreservesUniqueness | internal/services/budget_service.go:22-31 | appending a budget with a new id and a new key keeps ids and keys unique |
| BudgetService.BudgetStore.constructor | internal/services/budget_service.go:19-34 | a new store is empty and satisfies the uniqueness invariant |
| BudgetService.BudgetStore.GetOrCreateBudget | internal/services/budget_service.go:37-76 | returns the existing budget of the key with the table unchanged; otherwise inserts one with no base income and no expenses; afterwards the key finds the returned budget, so a second call returns it unchanged; at most one budget per key |
| BudgetService.BudgetStore.SetBaseIncome | internal/services/budget_service.go:79-108 | sets only baseIncome and updatedAt of the existing budget; a missing budget is an error and nothing is created (no upsert) |
| BudgetService.BudgetStore.AddExpense | internal/services/budget_service.go:111-156 | makes sure the budget exists, then appends the expense at the end, leaving earlier expenses unchanged; a nil id gets the fresh id and a zero createdAt gets now |
| BudgetService.BudgetStore.UpdateExpense | internal/services/budget_service.go:159-195 | in the first budget of the user holding the id, only the title and amount of that expense change (and the budget's updatedAt); ExpenseNotFound otherwise, with nothing changed |
| BudgetService.BudgetStore.DeleteExpense | internal/services/budget_service.go:198-235 | removes every expense with that id from the first budget of the user holding it, keeping the others in order; the list strictly shrinks; ExpenseNotFound otherwise |
| UserService.Message | internal/services/user_service.go:36-40 | the texts of the UserExists and InvalidCredentials errors |
| UserService.IndexBy | internal/services/user_service.go:36-40 | the `FindOne` lookup on one key, shared by the email lookup of sign-up and login and the `_id` lookup of GetUserById: a user is found exactly when one has that key, and the position found holds it |
| UserService.InsertPreservesUniqueness | internal/services/user_service.go:24-28 | inserting a user with a new email and id keeps emails and ids unique |
| UserService.UserStore.constructor | internal/services/user_service.go:20-31 | a new store is empty, with a hash and compare pair that agree |
| UserService.UserStore.SignUp | internal/services/user_service.go:34-65 | an existing email fails with UserExists and changes nothing; a hash failure is reported; otherwise exactly one user is appended with that email and the hash of the password, never the raw one; emails stay unique; logging in afterwards with the same password returns that user |
| UserService.UserStore.Login | internal/services/user_service.go:68-85 | the only error is InvalidCredentials, the same for an unknown email and a wrong password; success exactly when the email is stored and the stored hash matches; the stored user is returned |
| UserService.UserStore.GetUserById | internal/services/user_service.go:88-104 | InvalidUserId exactly for a bad hex; UserNotFound exactly when no user has the id; otherwise the stored user with that id |
| FundHandler.ValidateFundRequest | internal/handlers/fund_handler.go:157-173 | rejects, in order, an empty person name, a type other than BORROWED/GIVEN, and principal ≤ 0, with their messages; accepts exactly the rest |
| FundHandler.ValidateTransactionRequest | internal/handlers/fund_handler.go:346-350 | rejects exactly amount ≤ 0, with "transaction amount must be greater than 0" |
| FundHandler.ErrorStatus | internal/handlers/fund_handler.go:89-517 | the fund-not-found error is 404 on every route that looks a fund up; transaction-not-found is 404 only for update/delete transaction; any other error is 500 on get/delete routes and 400 on create/update fund and add/update transaction |
| FundHandler.FundResponseFacts | internal/handlers/fund_handler.go:112-140 | a fund response carries the fund's hex id, exactly its transactions sorted by date, totalPaid equal to their sum, and status OPEN exactly when outstanding > 0 |
| FundHandler.ResponseUnderInvariant | internal/handlers/fund_handler.go:112-140 | for a stored fund, 0 ≤ totalPaid ≤ principal, outstanding = principal − totalPaid, and PAID exactly when fully repaid |
| FundHandler.BuildResponses | internal/handlers/fund_handler.go:32-76 | the loop yields one response per fund, in order, each computed from the current transactions |
| FundHandler.GetAllFunds | internal/handlers/fund_handler.go:21-79 | a service error becomes its status; otherwise 200 with one response per fund of the user, in the order the service returns them (an empty list when there are none) |
| FundHandler.GetFundById | internal/handlers/fund_handler.go:83-142 | 200 with the response exactly when the lookup succeeds; 404 exactly for the not-found error; 500 for any other error |
| FundHandler.CreateFund | internal/handlers/fund_handler.go:146-218 | validation failures are 400 and change nothing; the transaction table never changes; otherwise 201 exactly when the service succeeds: exactly one fund is appended, with the fresh id, the user, the request's name, type, principal, start date and notes and createdAt = updatedAt = now, and the response has no transactions, totalPaid 0, outstanding = principal and status OPEN; service errors are 400 with the service error's message: an invalid user id, then a duplicate id |
| FundHandler.UpdateFund | internal/handlers/fund_handler.go:222-307 | validation failures are 400; 404 exactly for a fund not found; 200 exactly when the fund exists and the new principal is not below its total paid; then only that fund's record in the table is replaced, by the old one with the request's name, type, principal, start date and notes and updatedAt = now, other funds and all transactions stay, and the response is what a following GET returns; a failed lookup answers with the lookup's error, and a principal below the total paid with PrincipalBelowTotalPaid(paid), each through the route's status and message |
| FundHandler.DeleteFund | internal/handlers/fund_handler.go:311-330 | 200 "fund deleted successfully" exactly when the lookup succeeds; then only that fund is removed from the fund table and only its transactions from the transaction table, and a GET of it is a 404; a failed lookup answers with its own error (404 for not found, 500 otherwise) and message, with nothing changed |
| FundHandler.AddTransaction | internal/handlers/fund_handler.go:334-414 | amount ≤ 0 is 400; 404 exactly for a fund not found; 201 exactly when paid + amount ≤ principal (and the fresh id is unused); then the transaction table is the old one plus exactly the new transaction, funds are unchanged, and the fund's response lists it with totalPaid raised by the amount; every service error is answered with its status and message in the service's order: invalid fund id, the lookup's error, ExceedsPrincipal(principal − paid), duplicate id |
| FundHandler.UpdateTransaction | internal/handlers/fund_handler.go:418-499 | amount ≤ 0 is 400; 404 exactly for the two not-found messages (fund not owned, transaction not of that fund); for a found transaction, 200 exactly when the other payments plus the new amount stay within the principal; then only that transaction's amount, date and note change and the re-read response has totalPaid = others + new amount; every service error is answered with its status and message in the service's order: invalid fund id, invalid transaction id, the lookup's error, transaction not found, ExceedsPrincipal(principal − others) |
| FundHandler.DeleteTransaction | internal/handlers/fund_handler.go:503-570 | 404 exactly for the two not-found messages, otherwise errors are 500; 200 exactly when the transaction belongs to the fund; then only that transaction is removed from the table, funds are unchanged, and totalPaid drops by its amount; each error (invalid fund id, invalid transaction id, the lookup's error, transaction not found) is answered with its status and message |
| BudgetHandler.Respond | internal/handlers/budget_handler.go:35-43 | a budget response echoes the budget's fields, with remaining computed by the CalculateRemaining loop |
| BudgetHandler.ParseMonthQuery | internal/handlers/budget_handler.go:54-78 | missing year or month is the "required" error, then a non-integer year, then a non-integer month, each with its message; a month outside 1..12 is "month must be between 1 and 12"; accepted exactly when both parse and the month is within 1..12, with no range check on year |
| BudgetHandler.ParseMonthQueryOfCanonical | internal/handlers/budget_handler.go:60-78 | every 64-bit year (even 0 or negative) and every month 1..12, written in decimal, is accepted as that pair |
| BudgetHandler.ValidatePeriod | internal/handlers/budget_handler.go:108-112 | accepts exactly year > 0 and 1 ≤ month ≤ 12 |
| BudgetHandler.ValidateBaseIncome | internal/handlers/budget_handler.go:108-117 | the period is checked first, then amount ≥ 0 (zero accepted) |
| BudgetHandler.BudgetOfMonth | internal/handlers/budget_handler.go:24-96 | 200 exactly when get-or-create succeeds: an existing budget of the month is answered with the table unchanged, otherwise exactly one new empty budget is appended and answered (BudgetHandler.MonthServed); 500 with nothing changed otherwise, with the message "invalid user ID" for a bad user id and the duplicate-key message otherwise |
| BudgetHandler.GetCurrentBudget | internal/handlers/budget_handler.go:24-44 | 200 exactly when the user id is valid and the current month's budget exists or can be created; the table changes only by that creation; 500 with nothing changed otherwise, carrying the invalid-user-id or duplicate-key message |
| BudgetHandler.GetBudgetByMonth | internal/handlers/budget_handler.go:48-96 | a query error is 400 with its message and changes nothing; after a good query, 200 exactly when the month's budget exists or can be created, the table changing only by that creation; 500 with nothing changed otherwise, carrying the invalid-user-id or duplicate-key message |
| BudgetHandler.SetBaseIncome | internal/handlers/budget_handler.go:100-135 | validation failures are 400; 200 exactly when the month's budget exists; then only that budget's baseIncome and updatedAt change, and the reply carries its stored expenses, the new income and remaining = amount − Σ expenses; 500 otherwise with nothing changed, with "invalid user ID" for a bad user id and "mongo: no documents in result" for a missing month |
| ExpenseHandler.ValidateExpenseFields | internal/handlers/expense_handler.go:86-90 | accepts exactly a non-empty title with amount > 0 |
| ExpenseHandler.ValidateNewExpense | internal/handlers/expense_handler.go:34-45 | checks the period before title and amount, with their messages |
| ExpenseHandler.AddExpense | internal/handlers/expense_handler.go:24-70 | validation failures are 400 and other errors 500, with nothing changed; a valid request is answered 201 exactly when the user id parses and either the month's budget exists or the new budget id is unused; on 201 only the month's budget changes (or is created), its expenses being the earlier ones plus the new expense, and remaining is lowered by the amount; a 500 carries "invalid user ID" for a bad user id and the duplicate-key message otherwise |
| ExpenseHandler.UpdateExpense | internal/handlers/expense_handler.go:74-113 | validates only title and amount (no period); 200 exactly when a budget of the user holds the id; then only that budget changes, and in it only that expense's title and amount (and updatedAt); remaining shifts by old − new; every service error is 500 with its message: invalid user id, then invalid expense id, then the expense-not-found text |
| ExpenseHandler.DeleteExpense | internal/handlers/expense_handler.go:117-137 | every error is 500; 200 exactly when a budget of the user holds the id; then only that budget changes, its expenses being the old ones without that id, in their order; the 500 carries, in order, the invalid-user-id, invalid-expense-id or expense-not-found message |
| Auth.Split | internal/auth/middleware.go:21 | splitting on a separator yields at least one part, none containing the separator |
| Auth.JoinSplit | internal/auth/middleware.go:21 | joining the parts of a split with the separator gives back the string |
| Auth.SplitWithoutSeparator | internal/auth/middleware.go:21 | a string without the separator splits into itself alone |
| Auth.SplitAtFirstSeparator | internal/auth/middleware.go:21 | a split cuts at the first separator and continues on the rest |
| Auth.BearerShape | internal/auth/middleware.go:21-28 | a header splits on single spaces into exactly two parts with the first exactly "Bearer" iff it is "Bearer " followed by a space-free rest, and that rest is the token |
| Auth.BearerToken | internal/auth/middleware.go:21-28 | a token is extracted exactly from headers of the form "Bearer " + space-free token |
| Auth.ExtractUserId | internal/auth/jwt.go:49-55 | succeeds exactly when the userId claim is present and a string, returning it |
| Auth.Authenticate | internal/auth/middleware.go:11-49 | every rejection is 401: empty header "missing authorization header", bad shape "invalid authorization header format", failed verification "invalid token", bad claim "invalid token claims"; authorized exactly when all four checks pass, with the userId claim as the user |
| TimeUtils.GetMonthName | internal/utils/time.go:12-21 | non-empty exactly for months 1..12; 1 is "January" and 12 is "December" |
| TimeUtils.MonthNumber | internal/utils/time.go:13-20 | a string it maps to a month maps to 1..12 and is that month's table name (the name → number → name direction); every other string maps to 0 |
| TimeUtils.MonthNameRoundTrip | internal/utils/time.go:13-20 | each month 1..12 is recovered from its name, so the table holds twelve different names in calendar order |
| TimeUtils.MonthNamesDistinct | internal/utils/time.go:13-16 | distinct valid months have distinct names |

## Left out

- HTTP plumbing (Fiber, `c.Locals`, JSON rendering, CORS, logging) and routing in
  `cmd/server/main.go` are not modelled. Body parsing and its "invalid request format" reply are
  also left out: handlers take the decoded request record. `main.go` never wires the fund
  handler, and the model does not depend on routing.
- The MongoDB driver is not modelled: connection, index creation, cursors, decoding. Tables are
  sequences, and the unique indexes become invariants. Driver errors other than "no documents"
  and duplicate key cannot arise in memory, so their 500 replies are not modelled.
- The fund handlers re-read the fund after a successful mutation and answer 500 if that read
  fails. In the model the re-read always succeeds, which the contracts prove, so that branch has
  no counterpart.
- JWT signing and verification are left out. `VerifyToken` is a function parameter of
  `Auth.Authenticate`, and `GenerateToken` is not modelled.
- `internal/handlers/auth_handler.go` is left out: it only checks fields for emptiness around
  the service calls; the services themselves are modelled.
- UserService.UserStore.SignUp: bcrypt hashing is a function `hash` of the store, and the
  comparison is a function `matches`. bcrypt salts each hash, so `hash` is deterministic only in
  the model. That `matches(hash(p), p)` holds is a requirement on the pair, which the "login
  after sign-up" property relies on.
- UserService.UserStore.SignUp: the unique email index is only a backstop under concurrent
  sign-ups. Operations are sequential here, so the check-then-insert is the whole story.
- The wall clock is an input. `time.Now` and `GetCurrentMonthYear` are parameters (`now`,
  `clockYear`, `clockMonth`). The source calls `time.Now()` separately for createdAt and
  updatedAt; the model uses one `now` for both.
- Fresh `primitive.NewObjectID()` values are parameters. An id that already exists in the table
  makes the insert fail with DuplicateKey. Its message is the fixed text "E11000 duplicate key
  error"; the driver's own message, which goes on to name the collection, the index and the key,
  is not modelled.
- float64 arithmetic is not modelled: amounts are exact reals. The `%.2f` formatting is also left
  out of "transaction amount would exceed principal amount. Maximum allowed: %.2f" and "principal
  amount cannot be less than total paid (%.2f)": those error values (ExceedsPrincipal,
  PrincipalBelowTotalPaid) carry the number, and their message is the text before it.
- Concurrency is not modelled: the check-then-write of AddTransaction and UpdateTransaction is
  not atomic across requests in the source. The model runs operations one at a time.
- FundService.SortByDate: MongoDB's sort by date leaves the order of equal dates unspecified.
  The model's insertion sort keeps table order for ties.
- `internal/config/config.go` (environment configuration) is not part of this model.
- TimeUtils.GetMonthName: its own contract names only months 1 and 12. The rest of the table is
  stated through TimeUtils.MonthNumber and TimeUtils.MonthNameRoundTrip.
