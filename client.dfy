/**
 * `YNABClient`: the resolved token, the lazily opened HTTP session, `_request`, and the endpoint
 * methods with the payloads and queries they build.
 */
module Client {
  import opened Wrappers
  import opened PyJson
  import opened Errors
  import opened Calls
  import opened Credentials
  import opened Service

  /** The `_client` field: no session yet, an open session, or a closed one (numbered by opening order). */
  datatype Session = NoSession | Open(id: nat) | Closed(id: nat)

  /** `_get_client`: keep an open session, otherwise open session number `openedCount`. */
  function NextSession(s: Session, openedCount: nat): (r: (Session, nat))
    ensures r.0.Open? && r.1 >= openedCount
    ensures s.Open? <==> r == (s, openedCount)
  {
    if s.Open? then (s, openedCount) else (Open(openedCount), openedCount + 1)
  }

  /** A second `_get_client` right after the first returns the same session and opens nothing. */
  lemma {:induction false} NextSessionIdempotent(s: Session, openedCount: nat)
    ensures var r := NextSession(s, openedCount); NextSession(r.0, r.1) == r
  {
  }

  /** `close`: only an open session is closed. */
  function AfterClose(s: Session): (r: Session)
    ensures s.Open? ==> r == Closed(s.id)
    ensures !s.Open? ==> r == s
  {
    if s.Open? then Closed(s.id) else s
  }

  /** After `close`, the next `_get_client` opens a new session rather than reusing the closed one. */
  lemma {:induction false} ReopenAfterClose(s: Session, openedCount: nat)
    requires s.Open? ==> s.id < openedCount
    ensures var r := NextSession(AfterClose(s), openedCount); r.0 == Open(openedCount) && r.0 != s
  {
  }

  /** The body of a successful response with its envelope removed; unwrapping failures are Python exceptions. */
  function Unwrapped(r: Result<Json, Fault>, key: string): (u: Result<Json, Fault>)
    ensures r.Failure? ==> u == r
    ensures r.Success? && Unwrap(r.value, key).Success? ==> u == Success(Unwrap(r.value, key).value)
    ensures r.Success? && Unwrap(r.value, key).Failure? ==> u == Failure(Raised(Unwrap(r.value, key).error))
  {
    match r
    case Failure(f) => Failure(f)
    case Success(body) =>
      match Unwrap(body, key)
      case Success(v) => Success(v)
      case Failure(x) => Failure(Raised(x))
  }

  /** One endpoint method call: the request, the mapped response, the unwrapped resource, and the world afterwards. */
  function Exchange(e: Env, w: World, bearer: string, c: Call): (r: (Result<Json, Fault>, World))
    ensures r.1 == Step(e, w, bearer, c).1
    ensures r.0 == Unwrapped(ResponseResult(Step(e, w, bearer, c).0), c.ResourceKey())
  {
    var s := Step(e, w, bearer, c);
    (Unwrapped(ResponseResult(s.0), c.ResourceKey()), s.1)
  }

  /** A resource the service answered for an authorised, unscripted call reaches the caller unchanged. */
  lemma {:induction false} ExchangeDeliversAnswer(e: Env, w: World, bearer: string, c: Call, value: Json)
    requires Serves(e, |w.log|, bearer)
    requires Answer(e, w.categories, |w.log|, c) == Ok(c, value)
    ensures Exchange(e, w, bearer, c).0 == Success(value)
  {
    UnwrapEnvelope(c.ResourceKey(), value);
  }

  /** Nothing from the call `|w.log|` on is scripted, and the resolved token is the one the service accepts. */
  predicate FaultFree(e: Env, w: World, environ: Option<string>, keyring: Keyring) {
    && ClientToken(None, environ, keyring) == Success(e.token)
    && forall k :: k in e.script ==> k < |w.log|
  }

  const RequiredTransactionKeys: set<string> := {"account_id", "date", "amount", "cleared", "approved"}
  const OptionalTransactionKeys: set<string> := {"payee_name", "payee_id", "category_id", "memo"}

  /** `if value: t[key] = value` */
  function WithOptional(t: map<string, Json>, key: string, value: Option<string>): (r: map<string, Json>)
    ensures r.Keys == if Given(value) then t.Keys + {key} else t.Keys
    ensures key in r && Given(value) ==> r[key] == JStr(value.value)
    ensures !Given(value) ==> r == t
  {
    if Given(value) then t[key := JStr(value.value)] else t
  }

  /** The keys `create_transaction` always sends. */
  function RequiredTransactionFields(accountId: string, amount: int, date: string, cleared: string, approved: bool)
    : (t: map<string, Json>)
    ensures t.Keys == RequiredTransactionKeys
    ensures t["account_id"] == JStr(accountId) && t["date"] == JStr(date) && t["amount"] == JInt(amount)
    ensures t["cleared"] == JStr(cleared) && t["approved"] == JBool(approved)
  {
    map["account_id" := JStr(accountId), "date" := JStr(date), "amount" := JInt(amount),
        "cleared" := JStr(cleared), "approved" := JBool(approved)]
  }

  /** The `transaction` dict of `create_transaction`. */
  function TransactionPayload(
    accountId: string, amount: int, date: string, payeeName: Option<string>, payeeId: Option<string>,
    categoryId: Option<string>, memo: Option<string>, cleared: string, approved: bool): (t: map<string, Json>)
    ensures RequiredTransactionKeys <= t.Keys <= RequiredTransactionKeys + OptionalTransactionKeys
    ensures t["account_id"] == JStr(accountId) && t["date"] == JStr(date) && t["amount"] == JInt(amount)
    ensures t["cleared"] == JStr(cleared) && t["approved"] == JBool(approved)
    ensures "payee_name" in t <==> Given(payeeName)
    ensures "payee_id" in t <==> Given(payeeId)
    ensures "category_id" in t <==> Given(categoryId)
    ensures "memo" in t <==> Given(memo)
    ensures "payee_name" in t ==> t["payee_name"] == JStr(payeeName.value)
    ensures "payee_id" in t ==> t["payee_id"] == JStr(payeeId.value)
    ensures "category_id" in t ==> t["category_id"] == JStr(categoryId.value)
    ensures "memo" in t ==> t["memo"] == JStr(memo.value)
  {
    var t0 := RequiredTransactionFields(accountId, amount, date, cleared, approved);
    var t1 := WithOptional(t0, "payee_name", payeeName);
    var t2 := WithOptional(t1, "payee_id", payeeId);
    var t3 := WithOptional(t2, "category_id", categoryId);
    WithOptional(t3, "memo", memo)
  }

  /** One `if value: transaction[key] = value`. */
  method AddIfGiven(t: map<string, Json>, key: string, value: Option<string>) returns (r: map<string, Json>)
    ensures r == WithOptional(t, key, value)
  {
    r := t;
    if Given(value) {
      r := r[key := JStr(value.value)];
    }
  }

  /** `create_transaction` builds its dict field by field. */
  method BuildTransactionPayload(
    accountId: string, amount: int, date: string, payeeName: Option<string>, payeeId: Option<string>,
    categoryId: Option<string>, memo: Option<string>, cleared: string, approved: bool)
    returns (t: map<string, Json>)
    ensures t == TransactionPayload(accountId, amount, date, payeeName, payeeId, categoryId, memo, cleared, approved)
  {
    t := RequiredTransactionFields(accountId, amount, date, cleared, approved);
    t := AddIfGiven(t, "payee_name", payeeName);
    t := AddIfGiven(t, "payee_id", payeeId);
    t := AddIfGiven(t, "category_id", categoryId);
    t := AddIfGiven(t, "memo", memo);
  }

  /** The endpoint choice of `get_transactions`: account first, then category, then the whole budget. */
  function TransactionsScope(accountId: Option<string>, categoryId: Option<string>): (s: TransactionScope)
    ensures Given(accountId) ==> s == AccountTransactions(accountId.value)
    ensures !Given(accountId) && Given(categoryId) ==> s == CategoryTransactions(categoryId.value)
    ensures !Given(accountId) && !Given(categoryId) ==> s == AllTransactions
  {
    if Given(accountId) then AccountTransactions(accountId.value)
    else if Given(categoryId) then CategoryTransactions(categoryId.value)
    else AllTransactions
  }

  /** The endpoint `get_transactions` requests: the account's transactions, else the category's, else all. */
  lemma {:induction false} TransactionsEndpoint(b: string, accountId: Option<string>, categoryId: Option<string>,
                                                q: map<string, string>)
    ensures var path := Calls.GetTransactions(b, TransactionsScope(accountId, categoryId), q).Path();
      && (Given(accountId) ==> path == "/budgets/" + b + "/accounts/" + accountId.value + "/transactions")
      && (!Given(accountId) && Given(categoryId) ==>
            path == "/budgets/" + b + "/categories/" + categoryId.value + "/transactions")
      && (!Given(accountId) && !Given(categoryId) ==> path == "/budgets/" + b + "/transactions")
  {
  }

  /** The query of `get_transactions`: `since_date` only when it is truthy. */
  function TransactionsQuery(sinceDate: Option<string>): (q: map<string, string>)
    ensures q.Keys == (if Given(sinceDate) then {"since_date"} else {})
    ensures "since_date" in q ==> q["since_date"] == sinceDate.value
  {
    if Given(sinceDate) then map["since_date" := sinceDate.value] else map[]
  }

  /** `get_transactions` builds its query and endpoint step by step. */
  method BuildTransactionsRequest(sinceDate: Option<string>, accountId: Option<string>, categoryId: Option<string>)
    returns (scope: TransactionScope, params: map<string, string>)
    ensures scope == TransactionsScope(accountId, categoryId)
    ensures params == TransactionsQuery(sinceDate)
  {
    params := map[];
    if Given(sinceDate) {
      params := params["since_date" := sinceDate.value];
    }
    if Given(accountId) {
      scope := AccountTransactions(accountId.value);
    } else if Given(categoryId) {
      scope := CategoryTransactions(categoryId.value);
    } else {
      scope := AllTransactions;
    }
  }

  class YnabClient {
    /** The token sent as `Authorization: Bearer <token>` on every call. */
    const token: string
    var session: Session
    /** How many sessions this client has opened. */
    var openedCount: nat

    constructor (token: string)
      ensures this.token == token && session == NoSession && openedCount == 0
    {
      this.token := token;
      session := NoSession;
      openedCount := 0;
    }

    /** `YNABClient(token)`: `token or get_token()`, which raises when no token is found. */
    static method Create(explicit: Option<string>, env: Option<string>, keyring: Keyring)
      returns (r: Result<YnabClient, Fault>)
      ensures ClientToken(explicit, env, keyring).Failure? ==>
        r == Failure(Raised(ClientToken(explicit, env, keyring).error))
      ensures ClientToken(explicit, env, keyring).Success? ==>
        && r.Success? && fresh(r.value)
        && r.value.token == ClientToken(explicit, env, keyring).value
        && r.value.session == NoSession && r.value.openedCount == 0
    {
      var t := ClientToken(explicit, env, keyring);
      if t.Failure? {
        return Failure(Raised(t.error));
      }
      var c := new YnabClient(t.value);
      return Success(c);
    }

    /** `_get_client` */
    method GetClient() returns (id: nat)
      modifies this
      ensures (session, openedCount) == NextSession(old(session), old(openedCount))
      ensures session == Open(id)
    {
      if !session.Open? {
        session := Open(openedCount);
        openedCount := openedCount + 1;
      }
      id := session.id;
    }

    /** `close` */
    method Close()
      modifies this
      ensures session == AfterClose(old(session)) && openedCount == old(openedCount)
    {
      if session.Open? {
        session := Closed(session.id);
      }
    }

    /** `_request`: make sure a session is open, send the call, map the outcome. */
    method Request(remote: Remote, c: Call) returns (r: Result<Json, Fault>)
      modifies this, remote
      ensures (session, openedCount) == NextSession(old(session), old(openedCount))
      ensures r == ResponseResult(Step(remote.env, old(remote.State()), token, c).0)
      ensures remote.State() == Step(remote.env, old(remote.State()), token, c).1
    {
      var _ := GetClient();
      var o := remote.Serve(token, c);
      r := ResponseResult(o);
    }

    /** Every endpoint method: `_request`, then `response["data"][key]`. */
    method Invoke(remote: Remote, c: Call) returns (r: Result<Json, Fault>)
      modifies this, remote
      ensures (session, openedCount) == NextSession(old(session), old(openedCount))
      ensures (r, remote.State()) == Exchange(remote.env, old(remote.State()), token, c)
    {
      var response := Request(remote, c);
      r := Unwrapped(response, c.ResourceKey());
    }

    /** `get_category` */
    method GetCategory(remote: Remote, budgetId: string, categoryId: string) returns (r: Result<Json, Fault>)
      modifies this, remote
      ensures (session, openedCount) == NextSession(old(session), old(openedCount))
      ensures (r, remote.State()) == Exchange(remote.env, old(remote.State()), token, Calls.GetCategory(budgetId, categoryId))
    {
      r := Invoke(remote, Calls.GetCategory(budgetId, categoryId));
    }

    /** The month-scoped category read that the corrected move-money uses. */
    method GetMonthCategory(remote: Remote, budgetId: string, month: string, categoryId: string)
      returns (r: Result<Json, Fault>)
      modifies this, remote
      ensures (session, openedCount) == NextSession(old(session), old(openedCount))
      ensures (r, remote.State()) == Exchange(remote.env, old(remote.State()), token, Calls.GetMonthCategory(budgetId, month, categoryId))
    {
      r := Invoke(remote, Calls.GetMonthCategory(budgetId, month, categoryId));
    }

    /** `update_category_budget` */
    method UpdateCategoryBudget(remote: Remote, budgetId: string, categoryId: string, month: string, budgeted: int)
      returns (r: Result<Json, Fault>)
      modifies this, remote
      ensures (session, openedCount) == NextSession(old(session), old(openedCount))
      ensures (r, remote.State()) ==
        Exchange(remote.env, old(remote.State()), token, Calls.UpdateCategoryBudget(budgetId, categoryId, month, budgeted))
    {
      r := Invoke(remote, Calls.UpdateCategoryBudget(budgetId, categoryId, month, budgeted));
    }

    /** `get_transactions` */
    method GetTransactions(remote: Remote, budgetId: string, sinceDate: Option<string>,
                           accountId: Option<string>, categoryId: Option<string>)
      returns (r: Result<Json, Fault>)
      modifies this, remote
      ensures (session, openedCount) == NextSession(old(session), old(openedCount))
      ensures (r, remote.State()) == Exchange(remote.env, old(remote.State()), token,
        Calls.GetTransactions(budgetId, TransactionsScope(accountId, categoryId), TransactionsQuery(sinceDate)))
    {
      var scope, params := BuildTransactionsRequest(sinceDate, accountId, categoryId);
      r := Invoke(remote, Calls.GetTransactions(budgetId, scope, params));
    }

    /** `create_transaction` */
    method CreateTransaction(remote: Remote, budgetId: string, accountId: string, amount: int, date: string,
                             payeeName: Option<string>, payeeId: Option<string>, categoryId: Option<string>,
                             memo: Option<string>, cleared: string, approved: bool)
      returns (r: Result<Json, Fault>)
      modifies this, remote
      ensures (session, openedCount) == NextSession(old(session), old(openedCount))
      ensures (r, remote.State()) == Exchange(remote.env, old(remote.State()), token,
        Calls.CreateTransaction(budgetId,
          TransactionPayload(accountId, amount, date, payeeName, payeeId, categoryId, memo, cleared, approved)))
    {
      var t := BuildTransactionPayload(accountId, amount, date, payeeName, payeeId, categoryId, memo, cleared, approved);
      r := Invoke(remote, Calls.CreateTransaction(budgetId, t));
    }

    /** `update_transaction`: the given fields are sent as they are. */
    method UpdateTransaction(remote: Remote, budgetId: string, transactionId: string, updates: map<string, Json>)
      returns (r: Result<Json, Fault>)
      modifies this, remote
      ensures (session, openedCount) == NextSession(old(session), old(openedCount))
      ensures (r, remote.State()) == Exchange(remote.env, old(remote.State()), token,
        Calls.UpdateTransaction(budgetId, transactionId, updates))
    {
      r := Invoke(remote, Calls.UpdateTransaction(budgetId, transactionId, updates));
    }

    /** `get_payees` */
    method GetPayees(remote: Remote, budgetId: string) returns (r: Result<Json, Fault>)
      modifies this, remote
      ensures (session, openedCount) == NextSession(old(session), old(openedCount))
      ensures (r, remote.State()) == Exchange(remote.env, old(remote.State()), token, Calls.GetPayees(budgetId))
    {
      r := Invoke(remote, Calls.GetPayees(budgetId));
    }

    /** `get_accounts` */
    method GetAccounts(remote: Remote, budgetId: string) returns (r: Result<Json, Fault>)
      modifies this, remote
      ensures (session, openedCount) == NextSession(old(session), old(openedCount))
      ensures (r, remote.State()) == Exchange(remote.env, old(remote.State()), token, Calls.GetAccounts(budgetId))
    {
      r := Invoke(remote, Calls.GetAccounts(budgetId));
    }
  }
}
