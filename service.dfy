/**
 * The remote budgeting service together with the network in front of it, as the environment
 * the tools run against. It keeps a category table (budgeted milliunits per category and
 * month) and the log of every call it received, in order. A script can force the outcome of
 * chosen calls (a timeout, a 500, a rate limit, any body); a scripted call changes nothing.
 * A single budget is modelled: budget ids are recorded but not checked.
 */
module Service {
  import opened Wrappers
  import opened PyJson
  import opened Errors
  import opened Calls
  import Text

  /** A category as the service stores it: its name and its budgeted milliunits per month. */
  datatype Category = Category(name: Option<string>, budgeted: map<string, int>)

  /**
   * What stays fixed while tools run: the token the service accepts, the month the service
   * considers current, the scripted outcomes (by position in the log), and the lists the
   * service returns for transactions, payees and accounts.
   */
  datatype Env = Env(
    token: string,
    currentMonth: string,
    script: map<nat, HttpOutcome>,
    transactions: seq<Json>,
    payees: seq<Json>,
    accounts: seq<Json>)

  /** What calls change: the category table, and the calls received so far. */
  datatype World = World(categories: map<string, Category>, log: seq<Call>)

  /** The JSON object the service returns for a category, with that month's amounts. */
  function CategoryJson(id: string, c: Category, month: string): Json {
    JObj(map["id" := JStr(id)]
      + (if c.name.Some? then map["name" := JStr(c.name.value)] else map[])
      + (if month in c.budgeted then map["budgeted" := JInt(c.budgeted[month])] else map[]))
  }

  function ErrorBody(id: string, name: string, detail: string): Json {
    JObj(map["error" := JObj(map["id" := JStr(id), "name" := JStr(name), "detail" := JStr(detail)])])
  }

  const UnauthorizedResponse: HttpOutcome := Response(401, Some(ErrorBody("401", "unauthorized", "Unauthorized")))
  const NotFoundResponse: HttpOutcome := Response(404, Some(ErrorBody("404.2", "resource_not_found", "Resource not found")))

  function Ok(c: Call, value: Json): HttpOutcome {
    Response(200, Some(Envelope(c.ResourceKey(), value)))
  }

  function SetBudgeted(cat: Category, month: string, v: int): Category {
    cat.(budgeted := cat.budgeted[month := v])
  }

  /** The service acts on the `k`-th call: it is not scripted and carries the accepted token. */
  predicate Serves(e: Env, k: nat, bearer: string) {
    k !in e.script && bearer == e.token
  }

  /** The answer to an authorised, unscripted call; a category read sees the current month. */
  function Answer(e: Env, cats: map<string, Category>, k: nat, c: Call): HttpOutcome {
    match c
    case GetCategory(_, id) =>
      if id in cats then Ok(c, CategoryJson(id, cats[id], e.currentMonth)) else NotFoundResponse
    case GetMonthCategory(_, m, id) =>
      if id in cats then Ok(c, CategoryJson(id, cats[id], m)) else NotFoundResponse
    case UpdateCategoryBudget(_, id, m, v) =>
      if id in cats then Ok(c, CategoryJson(id, SetBudgeted(cats[id], m, v), m)) else NotFoundResponse
    case GetTransactions(_, _, _) => Ok(c, JArr(e.transactions))
    case CreateTransaction(_, t) => Ok(c, JObj(t["id" := JStr("txn-" + Text.IntToString(k))]))
    case UpdateTransaction(_, tid, u) => Ok(c, JObj(u["id" := JStr(tid)]))
    case GetPayees(_) => Ok(c, JArr(e.payees))
    case GetAccounts(_) => Ok(c, JArr(e.accounts))
  }

  /** The table after an authorised, unscripted call: only a budget update of a known category changes it. */
  function Applied(cats: map<string, Category>, c: Call): (r: map<string, Category>)
    ensures r.Keys == cats.Keys
    ensures !c.UpdateCategoryBudget? ==> r == cats
  {
    match c
    case UpdateCategoryBudget(_, id, m, v) => if id in cats then cats[id := SetBudgeted(cats[id], m, v)] else cats
    case _ => cats
  }

  /** One exchange: the outcome the caller sees, and the world afterwards. */
  function Step(e: Env, w: World, bearer: string, c: Call): (r: (HttpOutcome, World))
    ensures r.1.log == w.log + [c]
    ensures r.1.categories.Keys == w.categories.Keys
    ensures !c.IsWrite() || !Serves(e, |w.log|, bearer) ==> r.1.categories == w.categories
    ensures !Serves(e, |w.log|, bearer) && |w.log| !in e.script ==> r.0 == UnauthorizedResponse
  {
    var k := |w.log|;
    var o :=
      if k in e.script then e.script[k]
      else if bearer != e.token then UnauthorizedResponse
      else Answer(e, w.categories, k, c);
    var cats := if Serves(e, k, bearer) then Applied(w.categories, c) else w.categories;
    (o, World(cats, w.log + [c]))
  }

  /** The budgeted amount of a category in a month, 0 when the service has none recorded. */
  function BudgetedIn(cats: map<string, Category>, id: string, month: string): int {
    if id in cats && month in cats[id].budgeted then cats[id].budgeted[month] else 0
  }

  /** A served budget update sets exactly that category's amount for that month. */
  lemma {:induction false} UpdateSetsBudgeted(e: Env, w: World, bearer: string, b: string, id: string, m: string, v: int,
                           id': string, m': string)
    requires Serves(e, |w.log|, bearer) && id in w.categories
    ensures var after := Step(e, w, bearer, UpdateCategoryBudget(b, id, m, v)).1.categories;
      BudgetedIn(after, id', m') == if id' == id && m' == m then v else BudgetedIn(w.categories, id', m')
  {
  }

  /** The service and the network: a mutable category table and call log over a fixed `Env`. */
  class Remote {
    const env: Env
    var categories: map<string, Category>
    var log: seq<Call>

    function State(): World
      reads this
    {
      World(categories, log)
    }

    constructor (env: Env, categories: map<string, Category>)
      ensures this.env == env && State() == World(categories, [])
    {
      this.env := env;
      this.categories := categories;
      this.log := [];
    }

    /** Receive one call and answer it. */
    method Serve(bearer: string, c: Call) returns (o: HttpOutcome)
      modifies this
      ensures (o, State()) == Step(env, old(State()), bearer, c)
    {
      var r := Step(env, State(), bearer, c);
      o := r.0;
      categories, log := r.1.categories, r.1.log;
    }
  }
}
