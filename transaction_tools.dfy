/**
 * The three transaction tools: `ynab_get_transactions` (one read, cut to the limit, one table
 * row per transaction and their total), `ynab_create_transaction` and
 * `ynab_update_transaction` (one write each, then a short report read back from the
 * service's answer). The update builds its patch from the fields that are not `None` and
 * refuses an empty patch before it looks for a token or opens a session.
 */
module TransactionTools {
  import opened Wrappers
  import opened PyJson
  import opened Errors
  import opened Calls
  import opened Credentials
  import opened Service
  import opened Client
  import opened Units
  import opened Models
  import Text

  // ---------------------------------------------------------------------------------------
  // The report of a created or updated transaction (lines 341-345 and 395-399)
  // ---------------------------------------------------------------------------------------

  /** The four lines both write tools print: id, date, amount and payee. */
  datatype Summary = Summary(id: Json, date: Json, amount: int, payee: Json)

  const NoPayee: Json := JStr("N/A")
  const NoCategory: Json := JStr("Uncategorized")

  /**
   * `transaction['id']`, `transaction['date']`, `format_currency(transaction['amount'])` and
   * `transaction.get('payee_name', 'N/A')`, raising in that order.
   */
  function Summarize(t: Json): (r: Result<Summary, Exception>)
    ensures r.Success? <==>
      && t.JObj? && "id" in t.fields && "date" in t.fields && "amount" in t.fields
      && AsInt(t.fields["amount"], "/").Success?
    ensures r.Success? ==>
      && r.value.id == t.fields["id"] && r.value.date == t.fields["date"]
      && AsInt(t.fields["amount"], "/") == Success(r.value.amount)
      && r.value.payee == (if "payee_name" in t.fields then t.fields["payee_name"] else NoPayee)
    ensures t.JObj? && "id" !in t.fields ==> r == Failure(KeyError("id"))
  {
    match Subscript(t, "id")
    case Failure(x) => Failure(x)
    case Success(id) =>
      match Subscript(t, "date")
      case Failure(x) => Failure(x)
      case Success(date) =>
        match Subscript(t, "amount")
        case Failure(x) => Failure(x)
        case Success(a) =>
          match AsInt(a, "/")
          case Failure(x) => Failure(x)
          case Success(amount) =>
            match Get(t, "payee_name", NoPayee)
            case Failure(x) => Failure(x)
            case Success(payee) => Success(Summary(id, date, amount, payee))
  }

  // ---------------------------------------------------------------------------------------
  // ynab_create_transaction (lines 323-352)
  // ---------------------------------------------------------------------------------------

  /** The transaction dict the create tool sends: it never passes a payee id. */
  function CreatePayload(p: CreateTransactionInput): (t: map<string, Json>)
    ensures RequiredTransactionKeys <= t.Keys && "payee_id" !in t
    ensures t["amount"] == JInt(DollarsToMilliunits(p.amount))
    ensures t["account_id"] == JStr(p.accountId) && t["date"] == JStr(p.date)
    ensures t["cleared"] == JStr(p.cleared.Value()) && t["approved"] == JBool(p.approved)
    ensures "memo" in t <==> Given(p.memo)
  {
    TransactionPayload(p.accountId, DollarsToMilliunits(p.amount), p.date, p.payeeName, None,
                       p.categoryId, p.memo, p.cleared.Value(), p.approved)
  }

  datatype CreateOutcome =
    | Created(summary: Summary, category: Json, memo: Option<string>)
    | CreateFailed(fault: Fault)

  /** The report of the created transaction; the memo line comes from the input, not the answer. */
  function CreateReport(r: Result<Json, Fault>, p: CreateTransactionInput): (o: CreateOutcome)
    ensures r.Failure? ==> o == CreateFailed(r.error)
    ensures o.Created? ==> r.Success? && Summarize(r.value) == Success(o.summary)
    ensures o.Created? ==> (o.memo.Some? <==> Given(p.memo))
  {
    match r
    case Failure(f) => CreateFailed(f)
    case Success(t) =>
      match Summarize(t)
      case Failure(x) => CreateFailed(Raised(x))
      case Success(s) =>
        match Get(t, "category_name", NoCategory)
        case Failure(x) => CreateFailed(Raised(x))
        case Success(category) => Created(s, category, if Given(p.memo) then Some(p.memo.value) else None)
  }

  /** `ynab_create_transaction`: the amount is converted first, then the token, the write and the report. */
  function CreateRun(e: Env, w: World, p: CreateTransactionInput, environ: Option<string>, keyring: Keyring)
    : (CreateOutcome, World)
  {
    match ClientToken(None, environ, keyring)
    case Failure(x) => (CreateFailed(Raised(x)), w)
    case Success(bearer) =>
      var (r, w') := Exchange(e, w, bearer, CreateTransaction(p.budgetId, CreatePayload(p)));
      (CreateReport(r, p), w')
  }

  method CreateTransactionTool(remote: Remote, p: CreateTransactionInput, environ: Option<string>, keyring: Keyring)
    returns (o: CreateOutcome)
    requires p.Valid()
    modifies remote
    ensures (o, remote.State()) == CreateRun(remote.env, old(remote.State()), p, environ, keyring)
  {
    var amount := DollarsToMilliunits(p.amount);
    var created := YnabClient.Create(None, environ, keyring);
    if created.Failure? {
      return CreateFailed(created.error);
    }
    var client := created.value;
    var r := client.CreateTransaction(remote, p.budgetId, p.accountId, amount, p.date, p.payeeName, None,
                                      p.categoryId, p.memo, p.cleared.Value(), p.approved);
    client.Close();
    o := CreateReport(r, p);
  }

  /**
   * Against a service that accepts the call, the tool sends exactly one create with the
   * converted amount, changes no category, and reports back the id the service assigned,
   * the date and amount it was given, the payee name when one was given, and no category name
   * (the payload names a category only by id).
   */
  lemma {:induction false} CreateReportsWhatWasSent(e: Env, w: World, p: CreateTransactionInput, environ: Option<string>, keyring: Keyring)
    requires FaultFree(e, w, environ, keyring)
    ensures var (o, w') := CreateRun(e, w, p, environ, keyring);
      && w'.log == w.log + [CreateTransaction(p.budgetId, CreatePayload(p))]
      && w'.categories == w.categories
      && o == Created(
           Summary(JStr("txn-" + Text.IntToString(|w.log|)), JStr(p.date), DollarsToMilliunits(p.amount),
                   if Given(p.payeeName) then JStr(p.payeeName.value) else NoPayee),
           NoCategory,
           if Given(p.memo) then Some(p.memo.value) else None)
  {
    ServedCreate(e, w, p, environ, keyring);
    ReportOfCreated(p, JStr("txn-" + Text.IntToString(|w.log|)));
  }

  /** Against a service that accepts the call, the create is sent once and answered with the payload and a new id. */
  lemma {:induction false} ServedCreate(e: Env, w: World, p: CreateTransactionInput, environ: Option<string>, keyring: Keyring)
    requires FaultFree(e, w, environ, keyring)
    ensures CreateRun(e, w, p, environ, keyring) ==
      (CreateReport(Success(JObj(CreatePayload(p)["id" := JStr("txn-" + Text.IntToString(|w.log|))])), p),
       World(w.categories, w.log + [CreateTransaction(p.budgetId, CreatePayload(p))]))
  {
    var c := CreateTransaction(p.budgetId, CreatePayload(p));
    assert Serves(e, |w.log|, e.token);
    ExchangeDeliversAnswer(e, w, e.token, c, JObj(CreatePayload(p)["id" := JStr("txn-" + Text.IntToString(|w.log|))]));
  }

  /** The report of a create answered with the payload it sent and the id `id`. */
  lemma {:induction false} ReportOfCreated(p: CreateTransactionInput, id: Json)
    ensures CreateReport(Success(JObj(CreatePayload(p)["id" := id])), p) ==
      Created(Summary(id, JStr(p.date), DollarsToMilliunits(p.amount),
                      if Given(p.payeeName) then JStr(p.payeeName.value) else NoPayee),
              NoCategory,
              if Given(p.memo) then Some(p.memo.value) else None)
  {
    var answer := CreatePayload(p)["id" := id];
    assert "category_name" !in answer;
    assert "payee_name" in answer <==> Given(p.payeeName);
  }

  // ---------------------------------------------------------------------------------------
  // ynab_update_transaction (lines 365-403)
  // ---------------------------------------------------------------------------------------

  const UpdateKeys: set<string> := {"amount", "date", "payee_name", "category_id", "memo", "cleared", "approved"}

  /** `if value is not None: updates[key] = value` */
  function WithSet(u: map<string, Json>, key: string, value: Option<Json>): (r: map<string, Json>)
    ensures r.Keys == if value.Some? then u.Keys + {key} else u.Keys
    ensures value.Some? ==> r[key] == value.value
    ensures value.None? ==> r == u
  {
    if value.Some? then u[key := value.value] else u
  }

  function StringValue(s: Option<string>): Option<Json> {
    if s.Some? then Some(JStr(s.value)) else None
  }

  /** `dollars_to_milliunits(params.amount)` when an amount is given. */
  function AmountValue(a: Option<real>): Option<Json> {
    if a.Some? then Some(JInt(DollarsToMilliunits(a.value))) else None
  }

  function ClearedValue(c: Option<ClearedStatus>): Option<Json> {
    if c.Some? then Some(JStr(c.value.Value())) else None
  }

  function ApprovedValue(b: Option<bool>): Option<Json> {
    if b.Some? then Some(JBool(b.value)) else None
  }

  /** No field of the update is given. */
  predicate NothingToUpdate(p: UpdateTransactionInput) {
    && p.amount.None? && p.date.None? && p.payeeName.None? && p.categoryId.None?
    && p.memo.None? && p.cleared.None? && p.approved.None?
  }

  /**
   * The `updates` dict: a key for exactly the fields that are not `None` (an empty string
   * counts as given), holding the converted amount, the status's string and the rest as given.
   */
  function UpdatePatch(p: UpdateTransactionInput): (u: map<string, Json>)
    ensures u.Keys <= UpdateKeys
    ensures "amount" in u <==> p.amount.Some?
    ensures "date" in u <==> p.date.Some?
    ensures "payee_name" in u <==> p.payeeName.Some?
    ensures "category_id" in u <==> p.categoryId.Some?
    ensures "memo" in u <==> p.memo.Some?
    ensures "cleared" in u <==> p.cleared.Some?
    ensures "approved" in u <==> p.approved.Some?
    ensures "amount" in u ==> u["amount"] == JInt(DollarsToMilliunits(p.amount.value))
    ensures "date" in u ==> u["date"] == JStr(p.date.value)
    ensures "payee_name" in u ==> u["payee_name"] == JStr(p.payeeName.value)
    ensures "category_id" in u ==> u["category_id"] == JStr(p.categoryId.value)
    ensures "memo" in u ==> u["memo"] == JStr(p.memo.value)
    ensures "cleared" in u ==> u["cleared"] == JStr(p.cleared.value.Value())
    ensures "approved" in u ==> u["approved"] == JBool(p.approved.value)
    ensures u == map[] <==> NothingToUpdate(p)
  {
    var u0 := WithSet(map[], "amount", AmountValue(p.amount));
    var u1 := WithSet(u0, "date", StringValue(p.date));
    var u2 := WithSet(u1, "payee_name", StringValue(p.payeeName));
    var u3 := WithSet(u2, "category_id", StringValue(p.categoryId));
    var u4 := WithSet(u3, "memo", StringValue(p.memo));
    var u5 := WithSet(u4, "cleared", ClearedValue(p.cleared));
    var u6 := WithSet(u5, "approved", ApprovedValue(p.approved));
    assert u6 == map[] <==> u6.Keys == {};
    u6
  }

  /** One `if value is not None: updates[key] = value`. */
  method SetIfGiven(u: map<string, Json>, key: string, value: Option<Json>) returns (r: map<string, Json>)
    ensures r == WithSet(u, key, value)
  {
    r := u;
    if value.Some? {
      r := r[key := value.value];
    }
  }

  /** Lines 368-383, one `if` per field. */
  method BuildUpdatePatch(p: UpdateTransactionInput) returns (u: map<string, Json>)
    ensures u == UpdatePatch(p)
  {
    u := SetIfGiven(map[], "amount", AmountValue(p.amount));
    u := SetIfGiven(u, "date", StringValue(p.date));
    u := SetIfGiven(u, "payee_name", StringValue(p.payeeName));
    u := SetIfGiven(u, "category_id", StringValue(p.categoryId));
    u := SetIfGiven(u, "memo", StringValue(p.memo));
    u := SetIfGiven(u, "cleared", ClearedValue(p.cleared));
    u := SetIfGiven(u, "approved", ApprovedValue(p.approved));
  }

  /**
   * The two tools disagree on an empty memo: the create tool drops it (it tests truthiness)
   * while the update tool sends it (it tests for `None`), which clears the memo.
   */
  lemma {:induction false} EmptyMemoSentOnlyByUpdate(c: CreateTransactionInput, u: UpdateTransactionInput)
    requires c.memo == Some("") && u.memo == Some("")
    ensures "memo" !in CreatePayload(c)
    ensures "memo" in UpdatePatch(u) && UpdatePatch(u)["memo"] == JStr("")
  {
    assert !Given(c.memo);
  }

  const NoFieldsMessage: string := "Error: No fields to update. Specify at least one field to change."

  datatype UpdateOutcome =
    | NoFieldsToUpdate
    | Updated(summary: Summary)
    | UpdateFailed(fault: Fault)

  function UpdateReport(r: Result<Json, Fault>): (o: UpdateOutcome)
    ensures r.Failure? ==> o == UpdateFailed(r.error)
    ensures o.Updated? <==> r.Success? && Summarize(r.value).Success?
    ensures o.Updated? ==> o.summary == Summarize(r.value).value
  {
    match r
    case Failure(f) => UpdateFailed(f)
    case Success(t) =>
      match Summarize(t)
      case Failure(x) => UpdateFailed(Raised(x))
      case Success(s) => Updated(s)
  }

  /** `ynab_update_transaction`: the patch first; an empty one is refused before any token or session. */
  function UpdateRun(e: Env, w: World, p: UpdateTransactionInput, environ: Option<string>, keyring: Keyring)
    : (UpdateOutcome, World)
  {
    var u := UpdatePatch(p);
    if u == map[] then (NoFieldsToUpdate, w)
    else
      match ClientToken(None, environ, keyring)
      case Failure(x) => (UpdateFailed(Raised(x)), w)
      case Success(bearer) =>
        var (r, w') := Exchange(e, w, bearer, UpdateTransaction(p.budgetId, p.transactionId, u));
        (UpdateReport(r), w')
  }

  method UpdateTransactionTool(remote: Remote, p: UpdateTransactionInput, environ: Option<string>, keyring: Keyring)
    returns (o: UpdateOutcome)
    requires p.Valid()
    modifies remote
    ensures (o, remote.State()) == UpdateRun(remote.env, old(remote.State()), p, environ, keyring)
  {
    var u := BuildUpdatePatch(p);
    if u == map[] {
      return NoFieldsToUpdate;
    }
    var created := YnabClient.Create(None, environ, keyring);
    if created.Failure? {
      return UpdateFailed(created.error);
    }
    var client := created.value;
    var r := client.UpdateTransaction(remote, p.budgetId, p.transactionId, u);
    client.Close();
    o := UpdateReport(r);
  }

  /**
   * An update with no field given is refused whatever the token situation, and the service
   * sees no call; with any field given the refusal never happens.
   */
  lemma {:induction false} UpdateRefusedExactlyWhenEmpty(e: Env, w: World, p: UpdateTransactionInput, environ: Option<string>, keyring: Keyring)
    ensures NothingToUpdate(p) ==> UpdateRun(e, w, p, environ, keyring) == (NoFieldsToUpdate, w)
    ensures !NothingToUpdate(p) ==> !UpdateRun(e, w, p, environ, keyring).0.NoFieldsToUpdate?
    ensures !NothingToUpdate(p) && ClientToken(None, environ, keyring).Success? ==>
      UpdateRun(e, w, p, environ, keyring).1.log == w.log + [UpdateTransaction(p.budgetId, p.transactionId, UpdatePatch(p))]
  {
  }

  /**
   * Against a service that accepts the call, an update that sets the date and the amount
   * changes no category and reports the transaction's id, the new date and the new amount.
   */
  lemma {:induction false} UpdateReportsNewValues(e: Env, w: World, p: UpdateTransactionInput, environ: Option<string>, keyring: Keyring)
    requires FaultFree(e, w, environ, keyring)
    requires p.date.Some? && p.amount.Some?
    ensures var (o, w') := UpdateRun(e, w, p, environ, keyring);
      && w'.categories == w.categories
      && o == Updated(Summary(JStr(p.transactionId), JStr(p.date.value), DollarsToMilliunits(p.amount.value),
                              if p.payeeName.Some? then JStr(p.payeeName.value) else NoPayee))
  {
    var u := UpdatePatch(p);
    assert u != map[] by {
      assert "amount" in u;
    }
    ServedUpdate(e, w, p, environ, keyring);
    ReportOfUpdated(p);
  }

  /** Against a service that accepts the call, a non-empty patch is sent once and answered with itself and the id. */
  lemma {:induction false} ServedUpdate(e: Env, w: World, p: UpdateTransactionInput, environ: Option<string>, keyring: Keyring)
    requires FaultFree(e, w, environ, keyring) && UpdatePatch(p) != map[]
    ensures UpdateRun(e, w, p, environ, keyring) ==
      (UpdateReport(Success(JObj(UpdatePatch(p)["id" := JStr(p.transactionId)]))),
       World(w.categories, w.log + [UpdateTransaction(p.budgetId, p.transactionId, UpdatePatch(p))]))
  {
    var c := UpdateTransaction(p.budgetId, p.transactionId, UpdatePatch(p));
    assert Serves(e, |w.log|, e.token);
    ExchangeDeliversAnswer(e, w, e.token, c, JObj(UpdatePatch(p)["id" := JStr(p.transactionId)]));
  }

  /** The report of an update that set the date and the amount, answered with its patch and the id. */
  lemma {:induction false} ReportOfUpdated(p: UpdateTransactionInput)
    requires p.date.Some? && p.amount.Some?
    ensures UpdateReport(Success(JObj(UpdatePatch(p)["id" := JStr(p.transactionId)]))) ==
      Updated(Summary(JStr(p.transactionId), JStr(p.date.value), DollarsToMilliunits(p.amount.value),
                      if p.payeeName.Some? then JStr(p.payeeName.value) else NoPayee))
  {
  }

  // ---------------------------------------------------------------------------------------
  // ynab_get_transactions (lines 273-310)
  // ---------------------------------------------------------------------------------------

  /** One table row: date, payee (at most 30 characters), category (at most 25), amount and status. */
  datatype Row = Row(date: Json, payee: Json, category: Json, amount: int, cleared: bool, approved: bool)

  const PayeeWidth: nat := 30
  const CategoryWidth: nat := 25
  const UnknownPayee: Json := JStr("Unknown")

  /**
   * `t.get(key, default)[:width]`. As written a key that is present with `null` is sliced and
   * raises; `lenient` reads such a value as missing, which is what the default is for.
   */
  function Column(t: Json, key: string, default: Json, width: nat, lenient: bool): (r: Result<Json, Exception>)
    requires t.JObj?
    ensures var v := if key in t.fields then t.fields[key] else default;
      var v' := if lenient && v == JNull then default else v;
      r == SlicePrefix(v', width)
  {
    match Get(t, key, default)
    case Failure(x) => Failure(x)
    case Success(v) => SlicePrefix(if lenient && v == JNull then default else v, width)
  }

  /** Lines 295-303 for one transaction, raising in the order the lines do. */
  function RowOf(t: Json, lenient: bool): (r: Result<Row, Exception>)
    ensures !t.JObj? ==> r.Failure? && r.error.AttributeError?
    ensures r.Success? ==>
      && t.JObj?
      && r.value.date == (if "date" in t.fields then t.fields["date"] else JStr("N/A"))
      && Column(t, "payee_name", UnknownPayee, PayeeWidth, lenient) == Success(r.value.payee)
      && Column(t, "category_name", NoCategory, CategoryWidth, lenient) == Success(r.value.category)
      && AsInt(if "amount" in t.fields then t.fields["amount"] else JInt(0), "+") == Success(r.value.amount)
      && (r.value.cleared <==> "cleared" in t.fields && t.fields["cleared"] == JStr("cleared"))
      && (r.value.approved <==> "approved" in t.fields && Truthy(t.fields["approved"]))
    ensures t.JObj? ==>
      (r.Success? <==>
         && Column(t, "payee_name", UnknownPayee, PayeeWidth, lenient).Success?
         && Column(t, "category_name", NoCategory, CategoryWidth, lenient).Success?
         && AsInt(if "amount" in t.fields then t.fields["amount"] else JInt(0), "+").Success?)
  {
    match Get(t, "date", JStr("N/A"))
    case Failure(x) => Failure(x)
    case Success(date) =>
      match Column(t, "payee_name", UnknownPayee, PayeeWidth, lenient)
      case Failure(x) => Failure(x)
      case Success(payee) =>
        match Column(t, "category_name", NoCategory, CategoryWidth, lenient)
        case Failure(x) => Failure(x)
        case Success(category) =>
          match Get(t, "amount", JInt(0))
          case Failure(x) => Failure(x)
          case Success(a) =>
            match AsInt(a, "+")
            case Failure(x) => Failure(x)
            case Success(amount) =>
              var cleared := Get(t, "cleared", JNull).value == JStr("cleared");
              var approved := Truthy(Get(t, "approved", JNull).value);
              Success(Row(date, payee, category, amount, cleared, approved))
  }

  /** The rows of all transactions in order, or the exception of the first one that raises. */
  function Rows(ts: seq<Json>, lenient: bool): (r: Result<seq<Row>, Exception>)
    decreases |ts|
  {
    if ts == [] then Success([])
    else
      match Rows(ts[..|ts| - 1], lenient)
      case Failure(x) => Failure(x)
      case Success(front) =>
        match RowOf(ts[|ts| - 1], lenient)
        case Failure(x) => Failure(x)
        case Success(row) => Success(front + [row])
  }

  /** The listing succeeds exactly when every transaction's row does. */
  lemma {:induction false} RowsSucceedExactly(ts: seq<Json>, lenient: bool)
    ensures Rows(ts, lenient).Success? <==> forall i :: 0 <= i < |ts| ==> RowOf(ts[i], lenient).Success?
    decreases |ts|
  {
    if ts != [] {
      var init := ts[..|ts| - 1];
      RowsSucceedExactly(init, lenient);
      assert forall i :: 0 <= i < |init| ==> init[i] == ts[i];
    }
  }

  /** A successful listing holds the transactions' rows, one each, in order. */
  lemma {:induction false} RowsAreRowwise(ts: seq<Json>, lenient: bool)
    requires Rows(ts, lenient).Success?
    ensures |Rows(ts, lenient).value| == |ts|
    ensures forall i :: 0 <= i < |ts| ==> RowOf(ts[i], lenient) == Success(Rows(ts, lenient).value[i])
    decreases |ts|
  {
    if ts != [] {
      var init := ts[..|ts| - 1];
      RowsAreRowwise(init, lenient);
      var front, row := Rows(init, lenient).value, RowOf(ts[|ts| - 1], lenient).value;
      var rows := Rows(ts, lenient).value;
      assert rows == front + [row];
      forall i | 0 <= i < |ts|
        ensures RowOf(ts[i], lenient) == Success(rows[i])
      {
        if i < |init| {
          assert init[i] == ts[i] && rows[i] == front[i];
        }
      }
    }
  }

  /** A failed listing raised the exception of the first transaction whose row raises. */
  lemma {:induction false} RowsFailureIsFirstRaise(ts: seq<Json>, lenient: bool)
    requires Rows(ts, lenient).Failure?
    ensures exists i :: (0 <= i < |ts| && RowOf(ts[i], lenient) == Failure(Rows(ts, lenient).error)
                         && forall j :: 0 <= j < i ==> RowOf(ts[j], lenient).Success?)
    decreases |ts|
  {
    var init := ts[..|ts| - 1];
    assert forall i :: 0 <= i < |init| ==> init[i] == ts[i];
    if Rows(init, lenient).Failure? {
      RowsFailureIsFirstRaise(init, lenient);
      var i :| 0 <= i < |init| && RowOf(init[i], lenient) == Failure(Rows(init, lenient).error)
               && forall j :: 0 <= j < i ==> RowOf(init[j], lenient).Success?;
      assert RowOf(ts[i], lenient) == Failure(Rows(ts, lenient).error);
    } else {
      RowsSucceedExactly(init, lenient);
      assert RowOf(ts[|ts| - 1], lenient) == Failure(Rows(ts, lenient).error);
    }
  }

  /** A first transaction whose row raises decides the listing. */
  lemma {:induction false} FirstRowDecides(ts: seq<Json>, lenient: bool)
    requires ts != [] && RowOf(ts[0], lenient).Failure?
    ensures Rows(ts, lenient) == Failure(RowOf(ts[0], lenient).error)
  {
    assert ts[..1][..0] == [];
    RowsFailurePersists(ts, 1, lenient);
  }

  /** `total += amount` over the rows. */
  function Total(rows: seq<Row>): int
    decreases |rows|
  {
    if rows == [] then 0 else Total(rows[..|rows| - 1]) + rows[|rows| - 1].amount
  }

  /** The total is the sum of the rows' amounts however the rows are split. */
  lemma {:induction false} TotalAppend(a: seq<Row>, b: seq<Row>)
    ensures Total(a + b) == Total(a) + Total(b)
    decreases |b|
  {
    if b == [] {
      assert a + b == a;
    } else {
      var b' := b[..|b| - 1];
      assert (a + b)[..|a + b| - 1] == a + b';
      TotalAppend(a, b');
    }
  }

  /** A row that raises decides the outcome of every longer list it starts. */
  lemma {:induction false} RowsFailurePersists(ts: seq<Json>, n: nat, lenient: bool)
    requires n <= |ts| && Rows(ts[..n], lenient).Failure?
    ensures Rows(ts, lenient) == Rows(ts[..n], lenient)
    decreases |ts| - n
  {
    if n < |ts| {
      var next := n + 1;
      assert ts[..next][..n] == ts[..n];
      RowsFailurePersists(ts, next, lenient);
    } else {
      assert ts[..n] == ts;
    }
  }

  /** One more transaction: its row is appended, or its exception ends the listing. */
  lemma {:induction false} RowsStep(ts: seq<Json>, i: nat, next: nat, lenient: bool, rows: seq<Row>)
    requires i < |ts| && next == i + 1 && Rows(ts[..i], lenient) == Success(rows)
    ensures RowOf(ts[i], lenient).Failure? ==> Rows(ts[..next], lenient) == Failure(RowOf(ts[i], lenient).error)
    ensures RowOf(ts[i], lenient).Success? ==> Rows(ts[..next], lenient) == Success(rows + [RowOf(ts[i], lenient).value])
  {
    assert ts[..next][..i] == ts[..i];
  }

  /** Lines 293-305: the loop over the transactions, one row and one addition at a time. */
  method ListRows(ts: seq<Json>, lenient: bool) returns (r: Result<(seq<Row>, int), Exception>)
    ensures Rows(ts, lenient).Failure? ==> r == Failure(Rows(ts, lenient).error)
    ensures Rows(ts, lenient).Success? ==> r == Success((Rows(ts, lenient).value, Total(Rows(ts, lenient).value)))
  {
    var rows: seq<Row> := [];
    var total := 0;
    var i := 0;
    while i < |ts|
      invariant 0 <= i <= |ts|
      invariant Rows(ts[..i], lenient) == Success(rows)
      invariant total == Total(rows)
    {
      var row := RowOf(ts[i], lenient);
      var next := i + 1;
      RowsStep(ts, i, next, lenient, rows);
      if row.Failure? {
        RowsFailurePersists(ts, next, lenient);
        return Failure(row.error);
      }
      TotalAppend(rows, [row.value]);
      assert Total([row.value]) == row.value.amount by {
        assert [row.value][..0] == [];
      }
      rows := rows + [row.value];
      total := total + row.value.amount;
      i := next;
    }
    assert ts[..i] == ts;
    r := Success((rows, total));
  }

  const NoTransactionsMessage: string := "No transactions found matching the criteria."

  datatype ListOutcome =
    | NoTransactions
    | Listed(rows: seq<Row>, total: int)
    | ListFailed(fault: Fault)

  /** Lines 284-307 on what the read returned. */
  function Listing(r: Result<Json, Fault>, limit: nat, lenient: bool): (o: ListOutcome)
    ensures r.Failure? ==> o == ListFailed(r.error)
    ensures r.Success? && r.value.JArr? ==>
      var shown := if |r.value.items| <= limit then r.value.items else r.value.items[..limit];
      && (shown == [] ==> o == NoTransactions)
      && (shown != [] && Rows(shown, lenient).Success? ==>
            o == Listed(Rows(shown, lenient).value, Total(Rows(shown, lenient).value)))
      && (shown != [] && Rows(shown, lenient).Failure? ==> o == ListFailed(Raised(Rows(shown, lenient).error)))
  {
    match r
    case Failure(f) => ListFailed(f)
    case Success(j) =>
      match SlicePrefix(j, limit)
      case Failure(x) => ListFailed(Raised(x))
      case Success(shown) =>
        if !Truthy(shown) then NoTransactions
        else
          match Iterate(shown)
          case Failure(x) => ListFailed(Raised(x))
          case Success(ts) =>
            match Rows(ts, lenient)
            case Failure(x) => ListFailed(Raised(x))
            case Success(rows) => Listed(rows, Total(rows))
  }

  function TransactionsCall(p: GetTransactionsInput): Call {
    GetTransactions(p.budgetId, TransactionsScope(p.accountId, p.categoryId), TransactionsQuery(p.sinceDate))
  }

  /** `ynab_get_transactions`; `lenient` selects the corrected reading of `null` names. */
  function TransactionsRun(e: Env, w: World, p: GetTransactionsInput, environ: Option<string>, keyring: Keyring,
                           lenient: bool): (ListOutcome, World)
    requires p.Valid()
  {
    match ClientToken(None, environ, keyring)
    case Failure(x) => (ListFailed(Raised(x)), w)
    case Success(bearer) =>
      var (r, w') := Exchange(e, w, bearer, TransactionsCall(p));
      (Listing(r, p.limit, lenient), w')
  }

  method ListTransactions(remote: Remote, p: GetTransactionsInput, environ: Option<string>, keyring: Keyring,
                          lenient: bool) returns (o: ListOutcome)
    requires p.Valid()
    modifies remote
    ensures (o, remote.State()) == TransactionsRun(remote.env, old(remote.State()), p, environ, keyring, lenient)
  {
    var created := YnabClient.Create(None, environ, keyring);
    if created.Failure? {
      return ListFailed(created.error);
    }
    var client := created.value;
    var r := client.GetTransactions(remote, p.budgetId, p.sinceDate, p.accountId, p.categoryId);
    client.Close();
    if r.Failure? {
      return ListFailed(r.error);
    }
    var shown := SlicePrefix(r.value, p.limit);
    if shown.Failure? {
      return ListFailed(Raised(shown.error));
    }
    if !Truthy(shown.value) {
      return NoTransactions;
    }
    var ts := Iterate(shown.value);
    if ts.Failure? {
      return ListFailed(Raised(ts.error));
    }
    var listed := ListRows(ts.value, lenient);
    if listed.Failure? {
      return ListFailed(Raised(listed.error));
    }
    o := Listed(listed.value.0, listed.value.1);
  }

  /** The first `limit` transactions the service holds, in its order. */
  function Shown(e: Env, limit: nat): seq<Json> {
    if |e.transactions| <= limit then e.transactions else e.transactions[..limit]
  }

  /** Against a service that accepts the call, the tool lists what the service holds and only reads. */
  lemma {:induction false} ServedTransactions(e: Env, w: World, p: GetTransactionsInput, environ: Option<string>,
                                              keyring: Keyring, lenient: bool)
    requires p.Valid() && FaultFree(e, w, environ, keyring)
    ensures TransactionsRun(e, w, p, environ, keyring, lenient) ==
      (Listing(Success(JArr(e.transactions)), p.limit, lenient), World(w.categories, w.log + [TransactionsCall(p)]))
  {
    assert Serves(e, |w.log|, e.token);
    ExchangeDeliversAnswer(e, w, e.token, TransactionsCall(p), JArr(e.transactions));
  }

  /** What the listing makes of a list of transactions: none to show, or one row per shown transaction. */
  lemma {:induction false} ListingOfList(ts: seq<Json>, limit: nat, lenient: bool)
    requires limit >= 1
    ensures var o := Listing(Success(JArr(ts)), limit, lenient);
      var shown := if |ts| <= limit then ts else ts[..limit];
      && (o.NoTransactions? <==> ts == [])
      && (ts != [] && Rows(shown, lenient).Success? ==>
            && o.Listed?
            && |o.rows| == |shown| <= limit
            && (forall i :: 0 <= i < |o.rows| ==> RowOf(ts[i], lenient) == Success(o.rows[i]))
            && o.total == Total(o.rows))
  {
    var shown := if |ts| <= limit then ts else ts[..limit];
    if ts != [] {
      assert shown != [] by {
        assert ts[0] == shown[0];
      }
      assert forall i :: 0 <= i < |shown| ==> shown[i] == ts[i];
      if Rows(shown, lenient).Success? {
        RowsAreRowwise(shown, lenient);
      }
    }
  }

  /**
   * The tool only reads: it sends one call and changes no category. Against a service that
   * accepts the call it lists one row per transaction among the first `limit`, in order,
   * totalling their amounts, and says there are none exactly when the service has none.
   */
  lemma {:induction false} ListingShowsFirstTransactions(e: Env, w: World, p: GetTransactionsInput, environ: Option<string>,
                                      keyring: Keyring, lenient: bool)
    requires p.Valid() && FaultFree(e, w, environ, keyring)
    ensures var (o, w') := TransactionsRun(e, w, p, environ, keyring, lenient);
      && w'.log == w.log + [TransactionsCall(p)] && w'.categories == w.categories
      && (o.NoTransactions? <==> e.transactions == [])
      && (e.transactions != [] && Rows(Shown(e, p.limit), lenient).Success? ==>
            && o.Listed?
            && |o.rows| == |Shown(e, p.limit)| <= p.limit
            && (forall i :: 0 <= i < |o.rows| ==> RowOf(e.transactions[i], lenient) == Success(o.rows[i]))
            && o.total == Total(o.rows))
  {
    ServedTransactions(e, w, p, environ, keyring, lenient);
    ListingOfList(e.transactions, p.limit, lenient);
  }

  /** As written, a `payee_name` that is present with `null` is sliced, and that raises. */
  lemma {:induction false} NullPayeeRowRaises(t: Json)
    requires t.JObj? && "payee_name" in t.fields && t.fields["payee_name"] == JNull
    ensures RowOf(t, false) == Failure(TypeError("'NoneType' object is not subscriptable"))
  {
    assert TypeName(JNull) == "NoneType";
    assert "'" + "NoneType" == "'NoneType";
    assert "'NoneType" + "' object is not subscriptable" == "'NoneType' object is not subscriptable";
    assert Column(t, "payee_name", UnknownPayee, PayeeWidth, false) == SlicePrefix(JNull, PayeeWidth);
  }

  /**
   * As written, a first transaction whose `payee_name` is `null` (the service sends that for
   * a transaction without payee) makes the whole listing fail with a `TypeError`.
   */
  lemma {:induction false} NullPayeeFailsListing(e: Env, w: World, p: GetTransactionsInput, environ: Option<string>, keyring: Keyring)
    requires p.Valid() && FaultFree(e, w, environ, keyring)
    requires |e.transactions| > 0 && e.transactions[0].JObj?
    requires "payee_name" in e.transactions[0].fields && e.transactions[0].fields["payee_name"] == JNull
    ensures TransactionsRun(e, w, p, environ, keyring, false).0 ==
      ListFailed(Raised(TypeError("'NoneType' object is not subscriptable")))
  {
    ServedTransactions(e, w, p, environ, keyring, false);
    var shown := Shown(e, p.limit);
    assert shown[0] == e.transactions[0];
    NullPayeeRowRaises(shown[0]);
    FirstRowDecides(shown, false);
  }

  /** Reading `null` as missing, a name column never raises on a dict whose value is a string or `null`. */
  lemma {:induction false} LenientColumnAcceptsNull(t: Json, key: string, default: Json, width: nat)
    requires t.JObj? && default.JStr?
    requires key in t.fields ==> t.fields[key].JStr? || t.fields[key] == JNull
    ensures Column(t, key, default, width, true).Success?
    ensures key in t.fields && t.fields[key] == JNull ==> Column(t, key, default, width, true) == SlicePrefix(default, width)
  {
  }

  /**
   * The corrected listing: every transaction whose names are strings or `null` and whose
   * amount is an integer gets its row, a `null` payee showing as "Unknown".
   */
  lemma {:induction false} LenientRowsAcceptNullNames(ts: seq<Json>)
    requires forall i :: 0 <= i < |ts| ==> ts[i].JObj?
    requires forall i :: 0 <= i < |ts| ==> "payee_name" in ts[i].fields ==>
      ts[i].fields["payee_name"].JStr? || ts[i].fields["payee_name"] == JNull
    requires forall i :: 0 <= i < |ts| ==> "category_name" in ts[i].fields ==>
      ts[i].fields["category_name"].JStr? || ts[i].fields["category_name"] == JNull
    requires forall i :: 0 <= i < |ts| ==> "amount" in ts[i].fields ==> ts[i].fields["amount"].JInt?
    ensures Rows(ts, true).Success? && |Rows(ts, true).value| == |ts|
    ensures forall i :: 0 <= i < |ts| ==>
      ("payee_name" in ts[i].fields && ts[i].fields["payee_name"] == JNull ==> Rows(ts, true).value[i].payee == UnknownPayee)
  {
    forall i | 0 <= i < |ts|
      ensures RowOf(ts[i], true).Success?
    {
      LenientColumnAcceptsNull(ts[i], "payee_name", UnknownPayee, PayeeWidth);
      LenientColumnAcceptsNull(ts[i], "category_name", NoCategory, CategoryWidth);
    }
    RowsSucceedExactly(ts, true);
    RowsAreRowwise(ts, true);
  }
}
