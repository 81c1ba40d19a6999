# ynab-mcp-server, modelled in Dafny

This is a model of the core of ynab-mcp-server. That program is an MCP server whose tools read and change a YNAB
(You Need A Budget) budget through YNAB's REST API. The model covers:

- the conversion between dollars and integer milliunits, and the current-month string;
- the input models' constraints and defaults (pydantic models), as predicates and datatype defaults;
- token resolution (explicit token, then `YNAB_API_TOKEN`, then the OS keyring) and `store_token`;
- the API client `YNABClient`: its lazy HTTP session, `_request` with its status-to-message mapping,
  the envelope unwrapping of every endpoint method, and the request payloads and endpoints it builds;
- the tools `ynab_move_money`, `ynab_create_transaction`, `ynab_update_transaction`,
  `ynab_get_transactions`, `ynab_get_payees` and `ynab_get_accounts`, on what the service returns,
  and `format_error`.

The YNAB service and the network are modelled by the class `Service.Remote`. It holds a category
table (name, and budgeted milliunits per month) and the log of every call it received. A fixed `Env`
gives the token the service accepts, the month it considers current, scripted outcomes for chosen
calls (error statuses, timeouts, network failures, undecodable bodies), and the lists it returns for
transactions, payees and accounts. The service answers a category read without a month with the
current month's amounts. That is how YNAB's `GET /budgets/{id}/categories/{id}` behaves, and the
"stale month" finding below depends on it.

Every tool is modelled twice:

- a method that works step by step against a `Remote`, as the tool does;
- a function of the starting `World` (category table and log) that gives the outcome and the world
  afterwards.

The method's `ensures` ties the two together. The lemmas state what the tool promises in terms of that
function. Python exceptions are a closed datatype (`PyJson.Exception`, `Errors.Fault`). A tool's
outcome is a datatype holding what its Markdown report shows. Failures carry the fault that
`format_error` prints.

Modules, one per file: `Wrappers`, `PyJson` (Python's JSON values and the dict, slice and arithmetic
operations the tools apply to them), `Text`, `Units`, `Models`, `Months`, `Credentials`, `Errors`,
`Calls` (the typed calls and their method, path and body), `Service`, `Client`, `MoveMoney`,
`TransactionTools`, `Payees`, `Accounts`.

Input constraints are the `Valid()` predicates of the `Models` datatypes:

- positive move amount;
- non-negative set-budget amount;
- month and date patterns;
- limit in 1..500;
- text length limits;
- amounts to the cent after `round(v, 2)`.

The tool methods require them, as FastMCP validates its input before calling a tool.

The code has no dedicated error for a move-money call that fails half way: the second update's
exception reaches `format_error` like any other (see Findings). The model follows the code; the
corrected tool reports a partial move.

## Model

| member | source | states |
|---|---|---|
| Units.RoundHalfEven | src/ynab_mcp_server/server.py:42 | `round(x)` gives a nearest integer to `x`, the even one on a tie |
| Units.NearestTiesEvenUnique | src/ynab_mcp_server/server.py:42 | that rounding is unique: two nearest-ties-even integers of the same value are equal |
| Units.RoundIntegral | src/ynab_mcp_server/server.py:42 | rounding an integral value returns it |
| Units.RoundMonotone | src/ynab_mcp_server/server.py:42 | rounding preserves order |
| Units.DollarsToMilliunits | src/ynab_mcp_server/server.py:40-42 | the result is the nearest integer to dollars × 1000, ties to even |
| Units.MilliunitsToDollars | src/ynab_mcp_server/server.py:45-47 | the result times 1000 is exactly the milliunits |
| Units.MilliunitsRoundTrip | src/ynab_mcp_server/server.py:40-47 | milliunits → dollars → milliunits is the identity |
| Units.CentsRoundTrip | src/ynab_mcp_server/server.py:40-47 | a dollar amount given to the cent survives dollars → milliunits → dollars |
| Units.RoundTripWithinHalfMilliunit | src/ynab_mcp_server/server.py:40-47 | for any amount the round trip is off by at most half a milliunit |
| Units.TiesGoToEven | src/ynab_mcp_server/server.py:42 | 0.0025 → 2, 0.0035 → 4, −0.0025 → −2 milliunits |
| Text.DecimalString | src/ynab_mcp_server/server.py:59 | `str(n)` is a non-empty digit string with no leading zero; one digit exactly when n < 10 |
| Text.DecimalRoundTrip | src/ynab_mcp_server/server.py:59 | reading `str(n)` back gives n |
| Text.DecimalLength | src/ynab_mcp_server/server.py:59 | two-digit and four-digit numbers print with 2 and 4 digits |
| Text.ZeroPad2 | src/ynab_mcp_server/server.py:59 | `f"{n:02d}"` has at least two digits, exactly two below 100, and reads back as n |
| Text.IntToString | src/ynab_mcp_server/api.py:187 | `str(i)`: the decimal digits of a non-negative integer, with a `-` before those of a negative one |
| Months.CurrentMonth | src/ynab_mcp_server/server.py:56-59 | the month string is the year's digits plus six characters and ends in `-01` |
| Months.CurrentMonthShape | src/ynab_mcp_server/server.py:56-59 | for a four-digit year it matches `^\d{4}-\d{2}-01$`, and its groups read back as today's year and month |
| Text.LowerChar | src/ynab_mcp_server/server.py:471 | an ASCII capital becomes its small letter, every other character is kept |
| Text.Lower | src/ynab_mcp_server/server.py:471 | `s.lower()` maps every character and keeps the length |
| Text.LowerIgnoresCase | src/ynab_mcp_server/server.py:471 | names differing only in letter case get the same sort key |
| Text.StartsWith | src/ynab_mcp_server/server.py:470 | `s.startswith(prefix)`: the prefix fits in `s` and is its first characters |
| Text.LessEq | src/ynab_mcp_server/server.py:471 | `a <= b` on Python strings: lexicographic by code point, a proper prefix first; the four lemmas below make it a total order |
| Text.LessEqReflexive | src/ynab_mcp_server/server.py:471 | Python's string `<=` is reflexive |
| Text.LessEqTotal | src/ynab_mcp_server/server.py:471 | … total |
| Text.LessEqTransitive | src/ynab_mcp_server/server.py:471 | … transitive |
| Text.LessEqAntisymmetric | src/ynab_mcp_server/server.py:471 | … antisymmetric, so the sort key order is a total order |
| PyJson.Subscript | src/ynab_mcp_server/server.py:233 | `j[key]` succeeds exactly on a dict holding the key; KeyError when it lacks it, TypeError on a non-dict |
| PyJson.Get | src/ynab_mcp_server/server.py:228 | `j.get(key, default)` succeeds exactly on a dict, giving the value or the default; AttributeError otherwise |
| PyJson.SlicePrefix | src/ynab_mcp_server/server.py:296-297 | `[:n]` succeeds exactly on strings and lists and keeps their first n elements |
| PyJson.AsInt | src/ynab_mcp_server/server.py:147 | arithmetic accepts exactly ints and bools, a bool counting as 0 or 1 |
| PyJson.Iterate | src/ynab_mcp_server/server.py:132 | a list is iterated element by element; anything else gives no element or raises |
| PyJson.TypeName | src/ynab_mcp_server/server.py:66 | `type(j).__name__` of each JSON value: `NoneType`, `bool`, `int`, `float`, `str`, `list`, `dict`; it appears in every TypeError and AttributeError message |
| PyJson.PyStr | src/ynab_mcp_server/api.py:181-187 | `str(detail)` in the error f-strings: `None`, `True`/`False`, the integer's digits, or the string itself; a float or a container gives `""` (see Left out) |
| PyJson.Exception.Name | src/ynab_mcp_server/server.py:66 | `type(e).__name__` of each modelled exception |
| PyJson.Exception.Str | src/ynab_mcp_server/server.py:66 | `str(e)`: the message, and for a `KeyError` its key in single quotes |
| PyJson.Truthy | src/ynab_mcp_server/server.py:470 | `bool(j)`: `None`, `False`, zero, the empty string, list and dict are false, everything else true; used for `not p.get("deleted")` and `t.get("approved")` |
| PyJson.Given | src/ynab_mcp_server/api.py:264-267 | `bool(x)` of an optional string: false exactly for `None` and `""`; `Client.TransactionsScope`, `Client.TransactionsQuery` and `MoveMoney.MoveMonth` decide by it |
| Models.MonthStringIsDateString | src/ynab_mcp_server/models.py:74-78 | every string matching the month pattern also matches the date pattern |
| Models.ParseClearedStatus | src/ynab_mcp_server/models.py:96-100 | a status exists exactly for `cleared`, `uncleared` and `reconciled`, and its value is that string |
| Models.ClearedStatusRoundTrip | src/ynab_mcp_server/models.py:96-100 | status → value → status is the identity |
| Models.ClearedStatus.Value | src/ynab_mcp_server/models.py:96-100 | the enum member's string: `cleared`, `uncleared` or `reconciled` |
| Models.RoundToCents | src/ynab_mcp_server/models.py:129-133 | `round(v, 2)` is a whole number of cents, the nearest one with ties to even, within half a cent of v |
| Models.RoundToCentsIdempotent | src/ynab_mcp_server/models.py:129-133 | rounding to cents twice is rounding once |
| Models.Defaults | src/ynab_mcp_server/models.py:103-145 | the defaults are: budget `last-used`, limit 50, no since-date, `uncleared`, not approved, no new amount |
| Models.IsDateString | src/ynab_mcp_server/models.py:108 | the pattern `^\d{4}-\d{2}-\d{2}$`: ten characters, digits in the three groups, dashes between |
| Models.IsMonthString | src/ynab_mcp_server/models.py:74-78 | the pattern `^\d{4}-\d{2}-01$`: a date string whose day is `01` |
| Models.DatePatternExamples | src/ynab_mcp_server/models.py:74-78 | `2024-03-15` is a date and not a month, `2024-03-01` is both; a one-digit month, slashes or a trailing character are refused |
| Models.MoveMoneyCategoryInput.Valid | src/ynab_mcp_server/models.py:69-79 | `amount > 0` and an optional month matching the month pattern |
| Models.SetCategoryBudgetInput.Valid | src/ynab_mcp_server/models.py:81-90 | `amount >= 0` and an optional month matching the month pattern |
| Models.GetTransactionsInput.Valid | src/ynab_mcp_server/models.py:103-112 | an optional since-date matching the date pattern and `1 <= limit <= 500` |
| Models.CreateTransactionInput.Valid | src/ynab_mcp_server/models.py:115-133 | a date matching the date pattern, a payee name of at most 200 and a memo of at most 500 characters, and an amount already rounded to cents |
| Models.UpdateTransactionInput.Valid | src/ynab_mcp_server/models.py:136-145 | an optional date matching the date pattern, and the same length limits on the optional payee name and memo |
| Credentials.GetToken | src/ynab_mcp_server/api.py:30-60 | a non-empty environment token wins; else a non-empty keyring entry; else ValueError. A result is never empty |
| Credentials.KeyringLookup | src/ynab_mcp_server/api.py:47-55 | `keyring.get_password` when the package is installed; a missing package and a raising backend give no token |
| Credentials.KeyringFailuresAreNoToken | src/ynab_mcp_server/api.py:47-55 | a missing package and a raising backend resolve exactly as an empty keyring |
| Credentials.EnvironmentBeforeKeyring | src/ynab_mcp_server/api.py:42-44 | with a non-empty environment token, the keyring is irrelevant |
| Credentials.ClientToken | src/ynab_mcp_server/api.py:106 | a non-empty explicit token is used; an empty or missing one falls through to `get_token` |
| Credentials.StoreToken | src/ynab_mcp_server/api.py:63-82 | store succeeds exactly when the keyring is installed, and then holds the token; otherwise False with a printed message and the keyring unchanged |
| Credentials.StoredTokenIsResolved | src/ynab_mcp_server/api.py:49-75 | a token that was stored is what resolution finds, when the environment gives none |
| Errors.ErrorDetail | src/ynab_mcp_server/api.py:170-176 | a non-empty detail is exactly `error.detail` of a decoded body; anything else gives `""` |
| Errors.DetailOfErrorBody | src/ynab_mcp_server/api.py:172-174 | a well-formed error body yields its detail |
| Errors.MapStatus | src/ynab_mcp_server/api.py:178-187 | 401 and 429 are their fixed errors exactly; 403 and 404 exactly permission denied and not found; the detail and other statuses are kept |
| Errors.MapStatusKeepsStatus | src/ynab_mcp_server/api.py:178-187 | the mapped error gives back the status code |
| Errors.Message | src/ynab_mcp_server/api.py:178-192 | `str(YNABAPIError)` for each kind: the fixed 401, 429 and timeout texts, and the 403, 404, other-status and network texts with their detail |
| Errors.FixedMessages | src/ynab_mcp_server/api.py:179-185 | the 401 and 429 messages are fixed; 404's is "Resource not found: " plus the detail |
| Errors.ResponseResult | src/ynab_mcp_server/api.py:159-192 | only a decodable 2xx body is a success, and is returned; other statuses are mapped, timeouts and network errors get their own errors |
| Errors.IsSuccessStatus | src/ynab_mcp_server/api.py:166 | the statuses `raise_for_status` lets through: 200 to 299 |
| Errors.FormatError | src/ynab_mcp_server/server.py:62-66 | every message starts with `Error: `; an API error shows its own message after it |
| Calls.Unwrap | src/ynab_mcp_server/api.py:233-234 | `response["data"][key]` succeeds exactly when both levels exist, and returns the inner value |
| Calls.UnwrapEnvelope | src/ynab_mcp_server/api.py:233-234 | unwrapping undoes the service's `{"data": {key: value}}` envelope |
| Calls.Call.HttpMethod | src/ynab_mcp_server/api.py:212-327 | PATCH for the two updates, POST for the create, GET for every read |
| Calls.Call.Path | src/ynab_mcp_server/api.py:212-336 | each endpoint's path, built from the budget, category, month and transaction ids |
| Calls.Call.Body | src/ynab_mcp_server/api.py:243-325 | the `data=` body: `{"category": {"budgeted": v}}` for a budget update, `{"transaction": ...}` for a create or an update, none for a read |
| Calls.Call.ResourceKey | src/ynab_mcp_server/api.py:212-336 | the key under `data` of each answer: `category`, `transactions`, `transaction`, `payees` or `accounts` |
| Calls.BodyOnlyOnWrites | src/ynab_mcp_server/api.py:243-325 | exactly the PATCH and POST calls carry a body, and it wraps what is sent under the key the answer is unwrapped by |
| Service.Applied | src/ynab_mcp_server/api.py:244-248 | only a budget update changes the category table, and no call adds or removes a category |
| Service.Step | src/ynab_mcp_server/api.py:160-167 | every call is logged; reads and unserved calls change no category; a call with the wrong token gets 401 |
| Service.UpdateSetsBudgeted | src/ynab_mcp_server/api.py:236-249 | a served budget update sets that category's month to the value, and nothing else |
| Service.Remote.Serve | src/ynab_mcp_server/api.py:160-167 | the remote's new state and answer are `Step` of its old state |
| Client.NextSession | src/ynab_mcp_server/api.py:109-120 | the session is open afterwards; it is unchanged exactly when it was already open |
| Client.NextSessionIdempotent | src/ynab_mcp_server/api.py:111 | a second `_get_client` returns the same session and opens none |
| Client.AfterClose | src/ynab_mcp_server/api.py:122-125 | `close` closes an open session and leaves any other as it is |
| Client.ReopenAfterClose | src/ynab_mcp_server/api.py:109-125 | after `close` the next `_get_client` opens a new session |
| Client.Unwrapped | src/ynab_mcp_server/api.py:233-234 | request failures pass through; an unwrapping failure is a Python exception |
| Client.Exchange | src/ynab_mcp_server/api.py:157-192 | one endpoint call is the service's step, mapped by `_request` and then unwrapped |
| Client.ExchangeDeliversAnswer | src/ynab_mcp_server/api.py:157-167 | a resource the service answered reaches the caller unchanged |
| Client.WithOptional | src/ynab_mcp_server/api.py:299-306 | `if value: t[key] = value` adds the key exactly when the value is truthy |
| Client.RequiredTransactionFields | src/ynab_mcp_server/api.py:291-297 | the five required keys, with their values |
| Client.TransactionPayload | src/ynab_mcp_server/api.py:291-306 | the required keys always; each optional key exactly when its value is truthy, holding that value |
| Client.AddIfGiven | src/ynab_mcp_server/api.py:299-300 | one optional-key step updates the dict as `WithOptional` says |
| Client.BuildTransactionPayload | src/ynab_mcp_server/api.py:290-306 | the dict built in place is `TransactionPayload` |
| Client.TransactionsScope | src/ynab_mcp_server/api.py:267-272 | account path when `account_id` is truthy, else category path when `category_id` is, else the budget path |
| Client.TransactionsEndpoint | src/ynab_mcp_server/api.py:267-272 | `get_transactions` requests `/budgets/b/accounts/a/transactions` when the account id is truthy, else `/budgets/b/categories/c/transactions` when the category id is, else `/budgets/b/transactions` |
| Client.TransactionsQuery | src/ynab_mcp_server/api.py:263-265 | `since_date` is in the query exactly when truthy |
| Client.BuildTransactionsRequest | src/ynab_mcp_server/api.py:263-272 | the query and endpoint built step by step are the two functions above |
| Client.YnabClient.constructor | src/ynab_mcp_server/api.py:99-107 | a client holds its token and no session |
| Client.YnabClient.Create | src/ynab_mcp_server/api.py:99-107 | creation raises exactly when token resolution fails, and otherwise holds the resolved token |
| Client.YnabClient.GetClient | src/ynab_mcp_server/api.py:109-120 | the session moves as `NextSession` says and the returned session is open |
| Client.YnabClient.Close | src/ynab_mcp_server/api.py:122-125 | the session moves as `AfterClose` says |
| Client.YnabClient.Request | src/ynab_mcp_server/api.py:157-192 | the session is opened if needed; the result is the mapped answer of one service step |
| Client.YnabClient.Invoke | src/ynab_mcp_server/api.py:212-215 | an endpoint method is `Exchange` on the remote's state |
| Client.YnabClient.GetCategory | src/ynab_mcp_server/api.py:231-234 | `get_category` is one `Exchange` of the category read |
| Client.YnabClient.GetMonthCategory | src/ynab_mcp_server/api.py:231-234 | the month-scoped category read the corrected move uses, as one `Exchange` |
| Client.YnabClient.UpdateCategoryBudget | src/ynab_mcp_server/api.py:236-249 | `update_category_budget` is one `Exchange` of the PATCH |
| Client.YnabClient.GetTransactions | src/ynab_mcp_server/api.py:255-275 | `get_transactions` sends the scope and query above in one `Exchange` |
| Client.YnabClient.CreateTransaction | src/ynab_mcp_server/api.py:277-313 | `create_transaction` sends `TransactionPayload` in one `Exchange` |
| Client.YnabClient.UpdateTransaction | src/ynab_mcp_server/api.py:315-327 | `update_transaction` sends the updates as given in one `Exchange` |
| Client.YnabClient.GetPayees | src/ynab_mcp_server/api.py:333-336 | `get_payees` is one `Exchange` |
| Client.YnabClient.GetAccounts | src/ynab_mcp_server/api.py:212-215 | `get_accounts` is one `Exchange` |
| MoveMoney.MoveMonth | src/ynab_mcp_server/server.py:221 | the given month, or the current month when none is given |
| MoveMoney.MoveMonthIsMonthString | src/ynab_mcp_server/server.py:221 | with a valid input, the month written to always has the `YYYY-MM-01` shape |
| MoveMoney.Budgeted | src/ynab_mcp_server/server.py:228-229 | `get("budgeted", 0)` counts a missing amount as 0 and fails on a non-dict or non-integer |
| MoveMoney.PlanMove | src/ynab_mcp_server/server.py:228-238 | rejects exactly when from < amount, reading the source's name; otherwise new_from = from − amount ≥ 0, new_to = to + amount, and their sum is conserved |
| MoveMoney.Names | src/ynab_mcp_server/server.py:248 | the report's two names, or the KeyError of the first one missing |
| MoveMoney.WriteBoth | src/ynab_mcp_server/server.py:240-245 | the source's update first; the destination's only if that succeeded; which one failed |
| MoveMoney.MoveMoney | src/ynab_mcp_server/server.py:218-256 | the step-by-step tool ends in the outcome and state `MoveRun` gives |
| MoveMoney.MoveRun | src/ynab_mcp_server/server.py:218-256 | the tool as written: a token failure is reported before any call; otherwise `MoveWithToken` for the chosen month and amount. Its properties are `RejectionWritesNothing`, `RefusesShortCurrentMonth`, `MovedWritesInOrder`, `SecondWriteFailureKeepsFirst`, `SelfMoveInflates` and `MovedFromCurrentMonth` |
| MoveMoney.MoveWithToken | src/ynab_mcp_server/server.py:225-256 | the two reads, without a month, source first; a failed read ends the tool, otherwise `MoveAfterReads`. `ServedReads`, `TransferWithToken` and `RefusalWithToken` state what it does |
| MoveMoney.MoveAfterReads | src/ynab_mcp_server/server.py:228-256 | the plan, then the refusal, or the two writes and the names for the report; a failure of either write is reported as a plain failure. `AfterReadsOutcome`, `UnwrittenAfterReads` and `WrittenAfterReads` state what it does |
| MoveMoney.ReadCategory | src/ynab_mcp_server/api.py:231-234 | a served category read returns the category with the current month's amounts and changes nothing |
| MoveMoney.ReadMonthCategory | src/ynab_mcp_server/api.py:231-234 | a served month-scoped read returns that month's amounts |
| MoveMoney.WriteCategory | src/ynab_mcp_server/api.py:236-249 | a served update succeeds and sets that category's month |
| MoveMoney.CategoryJsonFields | src/ynab_mcp_server/server.py:228-233 | the tool reads the served budgeted amount (0 when none), and the name when there is one |
| MoveMoney.ServedReads | src/ynab_mcp_server/server.py:225-226 | two served reads hand the current month's view of both categories to the rest of the tool |
| MoveMoney.PlanOfCategories | src/ynab_mcp_server/server.py:228-235 | an uncovered amount is rejected with the source's name and amount |
| MoveMoney.PlannedTransfer | src/ynab_mcp_server/server.py:228-238 | a covered amount gives the transfer with the two new amounts |
| MoveMoney.NamesOfCategories | src/ynab_mcp_server/server.py:248 | named categories give their names |
| MoveMoney.WrittenBudgeted | src/ynab_mcp_server/server.py:240-245 | after both writes, the destination holds new_to, the source new_from, and every other amount is unchanged |
| MoveMoney.ServedWrites | src/ynab_mcp_server/server.py:240-245 | two served writes log both updates in order and apply both |
| MoveMoney.SecondWriteFails | src/ynab_mcp_server/server.py:240-245 | when only the second write fails, the source alone is written and both updates are logged |
| MoveMoney.WriteBothLog | src/ynab_mcp_server/server.py:240-245 | completed writes issue exactly the two updates, from first |
| MoveMoney.AfterReadsOutcome | src/ynab_mcp_server/server.py:228-252 | after the reads, a refusal changes nothing; a move logs exactly the two updates with conserving amounts |
| MoveMoney.WrittenAfterReads | src/ynab_mcp_server/server.py:237-252 | a transfer with both writes answered reports the move with before and after amounts |
| MoveMoney.SecondFailureAfterReads | src/ynab_mcp_server/server.py:243-256 | a failed second write is reported as a plain failure (as written) and as a partial move (corrected) |
| MoveMoney.UnwrittenAfterReads | src/ynab_mcp_server/server.py:231-235 | without a transfer plan nothing is written, and a refusal plan is reported as insufficient funds by both tools |
| MoveMoney.TransferAfterReads | src/ynab_mcp_server/server.py:228-252 | after served reads, a covered move writes both new amounts and reports them |
| MoveMoney.FailedSecondAfterReads | src/ynab_mcp_server/server.py:237-256 | after served reads, a failing second write leaves the source debited |
| MoveMoney.TransferWithToken | src/ynab_mcp_server/server.py:224-252 | against a fault-free service, a covered move between named categories completes with reads, then updates |
| MoveMoney.FailedSecondWithToken | src/ynab_mcp_server/server.py:224-256 | when only the fourth call fails, the tool reports the fault while the source has been written |
| MoveMoney.WithTokenOutcome | src/ynab_mcp_server/server.py:224-252 | a refusal issues only the two reads; a move issues reads, then the two updates with conserving amounts |
| MoveMoney.RefusalWithToken | src/ynab_mcp_server/server.py:225-235 | with the token in hand and a fault-free service, a source whose current-month amount is short is refused after the two reads alone |
| MoveMoney.RefusesShortCurrentMonth | src/ynab_mcp_server/server.py:228-235 | against a fault-free service, a named source whose current-month amount is below the amount is refused with that amount, after the two reads and no update |
| MoveMoney.RejectionWritesNothing | src/ynab_mcp_server/server.py:228-235 | a refused move issues the two reads and nothing else, leaves the table unchanged, and had from < amount |
| MoveMoney.MovedWritesInOrder | src/ynab_mcp_server/server.py:237-245 | a completed move issues exactly two reads then two updates, source first, in the chosen month; the sum is conserved and new_from ≥ 0 |
| MoveMoney.SecondWriteFailureKeepsFirst | src/ynab_mcp_server/server.py:240-256 | a failing second update gives the generic failure, yet the source was debited and the destination untouched |
| MoveMoney.SelfMoveInflates | src/ynab_mcp_server/server.py:225-245 | moving from a category to itself raises its budget by the amount |
| MoveMoney.MovedFromCurrentMonth | src/ynab_mcp_server/server.py:221-245 | a move writes the current month's amounts, debited and credited, into the chosen month |
| MoveMoney.StaleMonthCreatesMoney | src/ynab_mcp_server/server.py:221-245 | moving $50 for January from this month's 200.00 and 30.00 makes January's total 0 → 230.00 |
| MoveMoney.CorrectedMoveMoney | src/ynab_mcp_server/server.py:218-256 | the step-by-step corrected tool ends in the outcome and state `CorrectedMoveRun` gives |
| MoveMoney.CorrectedMoveRun | src/ynab_mcp_server/server.py:218-256 | the corrected tool: a move within one category is refused before any call, then the token, then `CorrectedWithToken`. Its properties are `CorrectedRefusesSelfMove`, `CorrectedMoveConserves`, `CorrectedMoveFrame`, `CorrectedRefusesShortMonth` and `CorrectedReportsPartialMove` |
| MoveMoney.CorrectedWithToken | src/ynab_mcp_server/server.py:225-256 | both reads for the month written to, then `CorrectedAfterReads`. `CorrectedServedReads`, `CorrectedTransferWithToken` and `CorrectedRefusalWithToken` state what it does |
| MoveMoney.CorrectedAfterReads | src/ynab_mcp_server/server.py:228-256 | as `MoveAfterReads`, except that a failure of the second write is reported as a partial move with the source's new amount. `SecondFailureAfterReads` states the difference |
| MoveMoney.CorrectedMoveAfterReads | src/ynab_mcp_server/server.py:228-256 | the corrected tool after the reads, step by step, is `CorrectedAfterReads` |
| MoveMoney.CorrectedServedReads | src/ynab_mcp_server/server.py:225-226 | the corrected tool's reads give the chosen month's view |
| MoveMoney.CorrectedTransferWithToken | src/ynab_mcp_server/server.py:224-252 | the corrected tool writes the chosen month's amounts minus and plus the amount, and reports them |
| MoveMoney.CorrectedRefusalWithToken | src/ynab_mcp_server/server.py:231-235 | the corrected tool refuses what the chosen month cannot cover, with no update |
| MoveMoney.CorrectedFailedSecondWithToken | src/ynab_mcp_server/server.py:240-256 | the corrected tool reports a failed second update as a partial move with the source's new amount |
| MoveMoney.CorrectedRefusesSelfMove | src/ynab_mcp_server/server.py:225-226 | the corrected tool refuses a move within one category and makes no call |
| MoveMoney.CorrectedMoveConserves | src/ynab_mcp_server/server.py:228-245 | a corrected move debits and credits the chosen month's amounts and conserves their sum |
| MoveMoney.CorrectedMoveFrame | src/ynab_mcp_server/server.py:240-245 | a corrected move changes no other category and no other month |
| MoveMoney.SetBudgetedIn | src/ynab_mcp_server/api.py:244-248 | setting one category's month changes nothing else |
| MoveMoney.CorrectedRefusesShortMonth | src/ynab_mcp_server/server.py:231-235 | the corrected tool refuses exactly when the chosen month cannot cover the amount, after only the two reads |
| MoveMoney.CorrectedReportsPartialMove | src/ynab_mcp_server/server.py:240-256 | a failing second update is reported with its fault and the source's new amount, which the table holds |
| TransactionTools.Summarize | src/ynab_mcp_server/server.py:396-399 | the summary succeeds exactly with id, date and an integer amount; payee defaults to `N/A`; a missing id is the first KeyError |
| TransactionTools.CreatePayload | src/ynab_mcp_server/server.py:326-339 | the create sends the required keys, the converted amount, the status's value, a memo only when truthy, and never a payee id |
| TransactionTools.CreateReport | src/ynab_mcp_server/server.py:341-348 | the report comes from the answer; its memo line from the input, shown exactly when the memo is truthy |
| TransactionTools.CreateTransactionTool | src/ynab_mcp_server/server.py:323-352 | the step-by-step tool ends in the outcome and state `CreateRun` gives |
| TransactionTools.CreateRun | src/ynab_mcp_server/server.py:323-352 | the token, then one create with `CreatePayload`, then `CreateReport` of the answer. `CreateReportsWhatWasSent` states its effect |
| TransactionTools.CreateReportsWhatWasSent | src/ynab_mcp_server/server.py:323-352 | one create with the converted amount, no category change, and a report of the new id, the date, the amount and the payee |
| TransactionTools.ServedCreate | src/ynab_mcp_server/server.py:328-339 | a served create is sent once and answered with its payload and a new id |
| TransactionTools.ReportOfCreated | src/ynab_mcp_server/server.py:341-348 | the report of such an answer |
| TransactionTools.WithSet | src/ynab_mcp_server/server.py:370-383 | `if v is not None: updates[k] = v` adds the key exactly for a given value |
| TransactionTools.UpdatePatch | src/ynab_mcp_server/server.py:368-383 | a key for exactly the non-None fields (an empty string counts), with the converted amount and the status's value; empty exactly when nothing is given |
| TransactionTools.SetIfGiven | src/ynab_mcp_server/server.py:370-371 | one field step updates the dict as `WithSet` says |
| TransactionTools.BuildUpdatePatch | src/ynab_mcp_server/server.py:368-383 | the dict built field by field is `UpdatePatch` |
| TransactionTools.EmptyMemoSentOnlyByUpdate | src/ynab_mcp_server/server.py:378-379 | an empty memo is dropped by create (truthiness) but sent by update (`is not None`) |
| TransactionTools.UpdateReport | src/ynab_mcp_server/server.py:395-399 | the update's report is the answer's summary, or the fault |
| TransactionTools.UpdateTransactionTool | src/ynab_mcp_server/server.py:365-403 | the step-by-step tool ends in the outcome and state `UpdateRun` gives |
| TransactionTools.UpdateRun | src/ynab_mcp_server/server.py:365-403 | the patch first; an empty one is refused before the token, otherwise one update with it and `UpdateReport` of the answer. `UpdateRefusedExactlyWhenEmpty` and `UpdateReportsNewValues` state its effect |
| TransactionTools.UpdateRefusedExactlyWhenEmpty | src/ynab_mcp_server/server.py:385-386 | nothing given is refused with no call, whatever the token; otherwise no refusal, and one PATCH of the patch once a token resolves |
| TransactionTools.UpdateReportsNewValues | src/ynab_mcp_server/server.py:388-399 | a served update of date and amount reports the id and the new values and changes no category |
| TransactionTools.ServedUpdate | src/ynab_mcp_server/server.py:388-393 | a served non-empty patch is sent once and answered with itself and the id |
| TransactionTools.ReportOfUpdated | src/ynab_mcp_server/server.py:395-399 | the report of such an answer |
| TransactionTools.Column | src/ynab_mcp_server/server.py:296-297 | a name column is `get(key, default)[:width]`; the lenient reading treats `null` as missing |
| TransactionTools.RowOf | src/ynab_mcp_server/server.py:295-303 | a row has the date (default `N/A`), both sliced names, the integer amount, and the cleared and approved flags; it succeeds exactly when the columns and the amount do |
| TransactionTools.Rows | src/ynab_mcp_server/server.py:293-305 | the rows of the transactions in order, or the first exception. `RowsSucceedExactly`, `RowsAreRowwise` and `RowsFailureIsFirstRaise` state what it computes |
| TransactionTools.Total | src/ynab_mcp_server/server.py:293-299 | `total += amount` over the rows. `TotalAppend` states that it adds up over any split |
| TransactionTools.RowsSucceedExactly | src/ynab_mcp_server/server.py:294-305 | the loop completes exactly when every transaction's row does |
| TransactionTools.RowsAreRowwise | src/ynab_mcp_server/server.py:294-305 | a completed loop has one row per transaction, in order |
| TransactionTools.RowsFailureIsFirstRaise | src/ynab_mcp_server/server.py:294-305 | a failed loop raised the exception of the first transaction that raises |
| TransactionTools.FirstRowDecides | src/ynab_mcp_server/server.py:294-296 | a first transaction that raises decides the listing |
| TransactionTools.TotalAppend | src/ynab_mcp_server/server.py:293-299 | the total is additive over concatenation; the loop adds one row at a time through it |
| TransactionTools.ListRows | src/ynab_mcp_server/server.py:293-305 | the loop yields the rows and the sum of their amounts, or the first exception |
| TransactionTools.Listing | src/ynab_mcp_server/server.py:284-307 | the first `limit` transactions: none gives the empty message, otherwise their rows and total or the raised exception |
| TransactionTools.ListTransactions | src/ynab_mcp_server/server.py:273-310 | the step-by-step tool ends in the outcome and state `TransactionsRun` gives |
| TransactionTools.TransactionsRun | src/ynab_mcp_server/server.py:273-310 | the token, then one read of the scoped transactions, then `Listing` of the answer. `ListingShowsFirstTransactions` states its effect |
| TransactionTools.ServedTransactions | src/ynab_mcp_server/server.py:276-282 | a served listing sends one call and lists what the service holds |
| TransactionTools.ListingOfList | src/ynab_mcp_server/server.py:284-307 | the empty message exactly for no transactions; otherwise one row per shown transaction (at most `limit`), and their total |
| TransactionTools.ListingShowsFirstTransactions | src/ynab_mcp_server/server.py:273-310 | the tool only reads, says "none" exactly when there are none, lists the first `limit` in order and totals them |
| TransactionTools.NullPayeeRowRaises | src/ynab_mcp_server/server.py:296 | a `null` payee name is sliced and raises TypeError |
| TransactionTools.NullPayeeFailsListing | src/ynab_mcp_server/server.py:294-296 | a first transaction with `null` payee makes the whole listing fail |
| TransactionTools.LenientColumnAcceptsNull | src/ynab_mcp_server/server.py:296-297 | reading `null` as missing, a name column never raises and shows the default |
| TransactionTools.LenientRowsAcceptNullNames | src/ynab_mcp_server/server.py:293-305 | the corrected listing gives every such transaction its row, a `null` payee showing `Unknown` |
| Payees.Kept | src/ynab_mcp_server/server.py:470 | a payee is kept exactly when it is not deleted and its string name does not start with `Transfer`; the name is read only when not deleted |
| Payees.Deleted | src/ynab_mcp_server/server.py:470 | `p.get("deleted")` is truthy |
| Payees.HasTextName | src/ynab_mcp_server/server.py:470 | `p["name"]` exists and is a string, so `.startswith` and `.lower()` apply |
| Payees.Filter | src/ynab_mcp_server/server.py:470 | the filter succeeds exactly when every test does; it keeps exactly the kept payees, none added, and never more than the input |
| Payees.FilterSnoc | src/ynab_mcp_server/server.py:470 | one more payee is appended when kept, and its exception ends the filter |
| Payees.FilterCounts | src/ynab_mcp_server/server.py:470 | the filter keeps every copy of a kept payee and no copy of any other |
| Payees.FilterAppend | src/ynab_mcp_server/server.py:470 | the filter distributes over concatenation, so kept payees stay in input order |
| Payees.FilterPrefix | src/ynab_mcp_server/server.py:470 | what is kept of a prefix of the payees is a prefix of what is kept of all |
| Payees.FilterCountsVisible | src/ynab_mcp_server/server.py:470 | a successful filter keeps as many payees as are visible (dict, not deleted, string name not starting with "Transfer"), counted from the front |
| Payees.NameKey | src/ynab_mcp_server/server.py:471 | the sort key `p["name"].lower()`, defined for the kept payees, which all have a string name |
| Payees.Insert | src/ynab_mcp_server/server.py:471 | insertion adds exactly one element |
| Payees.InsertSorted | src/ynab_mcp_server/server.py:471 | insertion keeps a list sorted by name key |
| Payees.SortByName | src/ynab_mcp_server/server.py:471 | `sorted` gives a permutation ordered by lower-cased name |
| Payees.SortIsStable | src/ynab_mcp_server/server.py:471 | payees with equal keys keep their order |
| Payees.FirstPage | src/ynab_mcp_server/server.py:475 | `[:100]` is the first min(n, 100) payees |
| Payees.Lines | src/ynab_mcp_server/server.py:475-476 | one (name, id) line per payee, or the first KeyError |
| Payees.RenderPage | src/ynab_mcp_server/server.py:475-476 | the loop renders `Lines` |
| Payees.PayeeListing | src/ynab_mcp_server/server.py:470-479 | a failed read is reported; a page shows count − more ≤ 100 lines with `more` = count − 100 when over 100 |
| Payees.KeptListing | src/ynab_mcp_server/server.py:471-479 | the count is every kept payee; the page and the "more" line as above |
| Payees.ListPayees | src/ynab_mcp_server/server.py:464-483 | the step-by-step tool ends in the outcome and state `PayeesRun` gives |
| Payees.PayeesRun | src/ynab_mcp_server/server.py:464-483 | the token, then one read of the payees, then `PayeeListing` of the answer. `PayeePageShowsVisiblePayees` states its effect |
| Payees.ListReceived | src/ynab_mcp_server/server.py:470-479 | the tool's work on the received payees is `PayeeListing` |
| Payees.ListKept | src/ynab_mcp_server/server.py:471-479 | sorting and rendering the kept payees is `KeptListing` |
| Payees.FilterWellFormed | src/ynab_mcp_server/server.py:470 | well-formed payees filter without exception, keeping every visible one |
| Payees.PageIsKept | src/ynab_mcp_server/server.py:470-475 | every payee on the page was kept and has an id |
| Payees.PageOfVisible | src/ynab_mcp_server/server.py:470-476 | the page renders with names in case-insensitive order and no transfer payee |
| Payees.LinesOfSortedPage | src/ynab_mcp_server/server.py:471-476 | a sorted page of kept payees renders in order with no transfer payee |
| Payees.ListingOfKept | src/ynab_mcp_server/server.py:470-479 | the listing of payees that filter and render |
| Payees.PayeePageShowsVisiblePayees | src/ynab_mcp_server/server.py:464-483 | the tool only reads, reports as its count the number of visible payees, keeps every visible one, and lists the first 100 in name order, none a transfer payee |
| Accounts.KindIndex | src/ynab_mcp_server/server.py:136 | `atype in by_type`: the position of the type's group, or none exactly when no group has it |
| Accounts.Closed | src/ynab_mcp_server/server.py:133 | `a.get("deleted") or a.get("closed")` is truthy |
| Accounts.Kind | src/ynab_mcp_server/server.py:135 | `a.get("type", "other")` |
| Accounts.Hashable | src/ynab_mcp_server/server.py:136 | a value usable as a dict key: anything but a list or a dict, which raise TypeError in `atype not in by_type` (see Left out) |
| Accounts.AddToGroups | src/ynab_mcp_server/server.py:136-138 | a new type opens a group at the end; a known type's group gets the account appended |
| Accounts.AddKeepsWellGrouped | src/ynab_mcp_server/server.py:131-138 | adding an open account keeps one group per type with open members, loses no member and adds only the account |
| Accounts.Grouped | src/ynab_mcp_server/server.py:131-138 | the dict has one non-empty group per type, holding only the listed accounts, and every open account |
| Accounts.GroupAccounts | src/ynab_mcp_server/server.py:131-138 | the first loop computes `Grouped` |
| Accounts.EntryOf | src/ynab_mcp_server/server.py:146-149 | an entry succeeds exactly with an integer balance (default 0), a name and an id, and holds them |
| Accounts.Entries | src/ynab_mcp_server/server.py:145-149 | one entry per account, in order |
| Accounts.SectionOf | src/ynab_mcp_server/server.py:143-150 | a section needs a string type (`.replace` otherwise raises AttributeError) and lists its accounts |
| Accounts.ListGroup | src/ynab_mcp_server/server.py:145-149 | the inner loop gives the entries and their balance sum, or the first exception |
| Accounts.ListSection | src/ynab_mcp_server/server.py:143-150 | one group's section and subtotal, or its exception |
| Accounts.ListSections | src/ynab_mcp_server/server.py:141-152 | the outer loop gives the sections and `total_balance`, or the first exception |
| Accounts.Sections | src/ynab_mcp_server/server.py:143-150 | one section per group in group order, or the first exception. `SectionsAreGroupwise`, `SectionKindsDistinct` and `SectionEntriesAreOpenAccounts` state what it computes |
| Accounts.EntriesTotal | src/ynab_mcp_server/server.py:145-147 | the sum of a section's balances. `EntriesTotalIsBalances` ties it to the members' balances |
| Accounts.SectionsTotal | src/ynab_mcp_server/server.py:141-150 | `total_balance`: the sum over sections of their entries. `SectionsTotalIsGroups` ties it to the groups' balances |
| Accounts.AccountListing | src/ynab_mcp_server/server.py:131-153 | a failed read is the tool's fault |
| Accounts.ListAccounts | src/ynab_mcp_server/server.py:125-155 | the step-by-step tool ends in the outcome and state `AccountsRun` gives |
| Accounts.AccountsRun | src/ynab_mcp_server/server.py:125-155 | the token, then one read of the accounts, then `AccountListing` of the answer. `AccountTotalIsOpenBalance` states its effect |
| Accounts.AddToGroupsTotal | src/ynab_mcp_server/server.py:136-147 | adding an account adds its balance to the groups' total |
| Accounts.GroupedTotal | src/ynab_mcp_server/server.py:131-147 | the groups total the balances of the open accounts |
| Accounts.EntriesTotalIsBalances | src/ynab_mcp_server/server.py:145-147 | a group's subtotal is its members' balances |
| Accounts.SectionsTotalIsGroups | src/ynab_mcp_server/server.py:143-147 | the sections total the groups' balances |
| Accounts.SectionsAreGroupwise | src/ynab_mcp_server/server.py:143-150 | one section per group, in order |
| Accounts.SectionKindsDistinct | src/ynab_mcp_server/server.py:136-144 | no type has two sections |
| Accounts.SectionEntriesAreOpenAccounts | src/ynab_mcp_server/server.py:132-149 | every listed entry is an open account of its section's type |
| Accounts.OpenAccountsAreGrouped | src/ynab_mcp_server/server.py:132-138 | every open account is in its type's group |
| Accounts.ListingTotal | src/ynab_mcp_server/server.py:131-152 | the printed total is the open accounts' balance sum |
| Accounts.AccountTotalIsOpenBalance | src/ynab_mcp_server/server.py:125-155 | the tool only reads, and its total is the sum of the open accounts' balances |

## Left out

- Async and `async with`: the steps are sequential calls. A tool's `async with` opens a fresh client,
  and the model creates one per run.
- httpx, TLS, headers, the 30 s timeout and JSON decoding are not modelled. A response is an `HttpOutcome`: a status with an optional decoded
  body, a timeout, or a network failure. `raise_for_status` counts every non-2xx status as an error,
  since redirects are not followed.
- FastMCP wiring, tool annotations, `lifespan` and the CLI `main` are framework glue and console I/O.
- Markdown rendering and `format_currency` are presentation. Tool outcomes are datatypes holding the values the report prints.
- pydantic's coercion, whitespace stripping and regex engine are not modelled. The constraints are `Valid()` predicates that tool
  methods require, and the defaults are datatype defaults.
- `SetCategoryBudgetInput` has only its `Valid()` predicate, since no tool uses it.
- `ynab_get_budgets`, `ynab_get_categories`, `ynab_get_month_summary`, and the client's `get_budgets`,
  `get_budget`, `get_account`, `get_categories` and `get_budget_month`: they only fetch and render.
  They are outside what is modelled.
- `__init__.py` holds package metadata only.
- The keyring backend and the environment are parameters, and so are today's date and the service's
  current month.
- The service is one budget. An update of a transaction is answered with the fields it sent plus the
  id, since no transaction store is modelled. Scripted calls change nothing. As a consequence, an
  update without a new date or amount (a memo-only update, say) ends in the model in a `KeyError`
  when the report reads `['date']` or `['amount']` of the answer, where YNAB answers with the
  whole transaction. This is why
  `TransactionTools.UpdateReportsNewValues` requires a new date and amount.
- Units.DollarsToMilliunits: amounts are exact reals. Python multiplies a binary float by 1000 first,
  so an amount that a float cannot hold exactly may round to a different milliunit.
- Models.RoundToCents: works on exact reals for the same reason; `round(v, 2)` on a binary float can
  differ on values near a half cent.
- Text.LowerChar: lower-cases ASCII letters only. Python's `str.lower` also maps other alphabets.
- PyJson.Exception: messages are approximated where the tools only show them through `format_error`
  (types are exact, as in Python 3.11 and earlier; from Python 3.12 slicing a dict raises a
  `KeyError` rather than a `TypeError`). This covers the text of a `JSONDecodeError` and the wording of TypeErrors.
- PyJson.PyStr: a float or a container is rendered as `""`; Python's f-strings print its `str`.
  The YNAB service sends the `detail` of its error bodies as a string.
- Credentials.StoreToken: one keyring state answers both `get_password` and `set_password`. A
  backend that reads but raises on `set_password` is not modelled: `store_token` turns that into
  `False`, but the model stores whenever the package is installed.
- PyJson.AsInt: a JSON float in an amount is refused. In Python it would add as a float; the YNAB
  service sends integer milliunits.
- Accounts.Hashable: dict keys that are equal but differently typed (`1` and `True`) are kept apart.
- Accounts.AccountListing: its own contract states only the failure case. What a listing holds is
  stated by `Accounts.ListingTotal` and `Accounts.AccountTotalIsOpenBalance`.
- Payees.PayeeListing: its contract states the page arithmetic only. What the page holds is stated
  by `Payees.ListingOfKept` and `Payees.PayeePageShowsVisiblePayees`.

## Findings

| source | as written | input that shows it | evidently intended | confidence | as-written member | corrected member |
|---|---|---|---|---|---|---|
| src/ynab_mcp_server/server.py:225-245 | from and to may be the same category; both reads see the old amount b, and the writes set b − a and then b + a | move $50 from a category to itself with $200 budgeted: it ends at $250 | refuse a move within one category, or leave it unchanged | not executed | MoveMoney.SelfMoveInflates | MoveMoney.CorrectedRefusesSelfMove |
| src/ynab_mcp_server/server.py:221-245 | the amounts are read for the current month (`get_category` has no month) but written into `params.month` | this month A = 200.00 and B = 30.00, January empty; move $50 for January: January becomes 150.00 + 80.00 | read the chosen month's amounts, so the move conserves that month's total | not executed | MoveMoney.StaleMonthCreatesMoney | MoveMoney.CorrectedMoveConserves |
| src/ynab_mcp_server/server.py:240-256 | a failure of the second update is reported like any other error, though the first update already took effect | the destination's PATCH answers 500 after the source's succeeded | say that the move was only half applied, with the source's new amount | not executed | MoveMoney.SecondWriteFailureKeepsFirst | MoveMoney.CorrectedReportsPartialMove |
| src/ynab_mcp_server/server.py:296 | `t.get("payee_name", "Unknown")[:30]` slices a `null` payee name, raising TypeError for the whole listing | a transaction with `"payee_name": null` (a transaction without payee) | show the default `Unknown` for a `null` name | not executed | TransactionTools.NullPayeeFailsListing | TransactionTools.LenientRowsAcceptNullNames |
