/**
 * The remote operations the client issues, each as a value, with the HTTP method, path and
 * body that `YNABClient` sends for it, and the response envelope `{"data": {<key>: ...}}`
 * that the client unwraps.
 */
module Calls {
  import opened Wrappers
  import opened PyJson

  datatype Method = GET | POST | PATCH

  /** Which transactions `get_transactions` asks for. */
  datatype TransactionScope =
    | AllTransactions
    | AccountTransactions(accountId: string)
    | CategoryTransactions(categoryId: string)

  function TransactionsPath(budgetId: string, scope: TransactionScope): string {
    match scope
    case AllTransactions => "/budgets/" + budgetId + "/transactions"
    case AccountTransactions(a) => "/budgets/" + budgetId + "/accounts/" + a + "/transactions"
    case CategoryTransactions(c) => "/budgets/" + budgetId + "/categories/" + c + "/transactions"
  }

  datatype Call =
    | GetCategory(budgetId: string, categoryId: string)
    | GetMonthCategory(budgetId: string, month: string, categoryId: string)
    | UpdateCategoryBudget(budgetId: string, categoryId: string, month: string, budgeted: int)
    | GetTransactions(budgetId: string, scope: TransactionScope, params: map<string, string>)
    | CreateTransaction(budgetId: string, transaction: map<string, Json>)
    | UpdateTransaction(budgetId: string, transactionId: string, updates: map<string, Json>)
    | GetPayees(budgetId: string)
    | GetAccounts(budgetId: string)
  {
    function HttpMethod(): Method {
      match this
      case UpdateCategoryBudget(_, _, _, _) => PATCH
      case CreateTransaction(_, _) => POST
      case UpdateTransaction(_, _, _) => PATCH
      case _ => GET
    }

    /** A call that asks the service to change something. */
    predicate IsWrite() {
      HttpMethod() != GET
    }

    function Path(): string {
      match this
      case GetCategory(b, c) => "/budgets/" + b + "/categories/" + c
      case GetMonthCategory(b, m, c) => "/budgets/" + b + "/months/" + m + "/categories/" + c
      case UpdateCategoryBudget(b, c, m, _) => "/budgets/" + b + "/months/" + m + "/categories/" + c
      case GetTransactions(b, scope, _) => TransactionsPath(b, scope)
      case CreateTransaction(b, _) => "/budgets/" + b + "/transactions"
      case UpdateTransaction(b, t, _) => "/budgets/" + b + "/transactions/" + t
      case GetPayees(b) => "/budgets/" + b + "/payees"
      case GetAccounts(b) => "/budgets/" + b + "/accounts"
    }

    /** The JSON body (`data=`), which only the writes carry. */
    function Body(): Option<Json> {
      match this
      case UpdateCategoryBudget(_, _, _, v) => Some(JObj(map["category" := JObj(map["budgeted" := JInt(v)])]))
      case CreateTransaction(_, t) => Some(JObj(map["transaction" := JObj(t)]))
      case UpdateTransaction(_, _, u) => Some(JObj(map["transaction" := JObj(u)]))
      case _ => None
    }

    /** The key under `data` that holds the resource in the response. */
    function ResourceKey(): string {
      match this
      case GetCategory(_, _) => "category"
      case GetMonthCategory(_, _, _) => "category"
      case UpdateCategoryBudget(_, _, _, _) => "category"
      case GetTransactions(_, _, _) => "transactions"
      case CreateTransaction(_, _) => "transaction"
      case UpdateTransaction(_, _, _) => "transaction"
      case GetPayees(_) => "payees"
      case GetAccounts(_) => "accounts"
    }
  }

  /**
   * Exactly the writes carry a body, and it wraps what is sent under the key by which the
   * answer is unwrapped: `category` for a budget update, `transaction` for the other two.
   */
  lemma {:induction false} BodyOnlyOnWrites(c: Call)
    ensures c.Body().Some? <==> c.IsWrite()
    ensures c.Body().Some? ==> c.Body().value.JObj? && c.Body().value.fields.Keys == {c.ResourceKey()}
  {
  }

  /** How the service wraps a resource: `{"data": {key: value}}`. */
  function Envelope(key: string, value: Json): Json {
    JObj(map["data" := JObj(map[key := value])])
  }

  /** `response["data"][key]` */
  function Unwrap(response: Json, key: string): (r: Result<Json, Exception>)
    ensures r.Success? <==>
      && response.JObj? && "data" in response.fields
      && response.fields["data"].JObj? && key in response.fields["data"].fields
    ensures r.Success? ==> r.value == response.fields["data"].fields[key]
  {
    match Subscript(response, "data")
    case Failure(x) => Failure(x)
    case Success(data) => Subscript(data, key)
  }

  /** Unwrapping undoes the service's envelope and passes the resource through unchanged. */
  lemma {:induction false} UnwrapEnvelope(key: string, value: Json)
    ensures Unwrap(Envelope(key, value), key) == Success(value)
  {
  }
}
