/**
 * `ynab_move_money`: read both categories, refuse a move the source category cannot cover,
 * otherwise write the source's new amount and then the destination's. `CorrectedMoveRun`
 * is the same tool with the three defects listed in the README's findings repaired.
 */
module MoveMoney {
  import opened Wrappers
  import opened PyJson
  import opened Errors
  import opened Calls
  import opened Credentials
  import opened Service
  import opened Client
  import opened Units
  import opened Months
  import opened Models
  import Text

  /** `params.month or get_current_month()` */
  function MoveMonth(p: MoveMoneyCategoryInput, today: Date): (m: string)
    requires today.Valid()
    ensures Given(p.month) ==> m == p.month.value
    ensures !Given(p.month) ==> m == CurrentMonth(today)
  {
    if Given(p.month) then p.month.value else CurrentMonth(today)
  }

  /** With a valid input the month written to always has the service's month shape. */
  lemma {:induction false} MoveMonthIsMonthString(p: MoveMoneyCategoryInput, today: Date)
    requires p.Valid() && today.Valid() && today.year >= 1000
    ensures IsMonthString(MoveMonth(p, today))
  {
    if !Given(p.month) {
      CurrentMonthShape(today);
    }
  }

  /** `cat.get("budgeted", 0)` used as an integer. */
  function Budgeted(cat: Json): (r: Result<int, Exception>)
    ensures r.Success? <==> cat.JObj? && ("budgeted" in cat.fields ==> cat.fields["budgeted"].JInt? || cat.fields["budgeted"].JBool?)
    ensures cat.JObj? && "budgeted" !in cat.fields ==> r == Success(0)
    ensures cat.JObj? && "budgeted" in cat.fields && cat.fields["budgeted"].JInt? ==> r == Success(cat.fields["budgeted"].i)
  {
    match Get(cat, "budgeted", JInt(0))
    case Failure(x) => Failure(x)
    case Success(v) => AsInt(v, "<")
  }

  /** The decision taken after both reads. */
  datatype Plan =
    | Reject(fromName: Json, fromBudgeted: int)
    | Transfer(fromBudgeted: int, toBudgeted: int, newFrom: int, newTo: int)

  /**
   * Lines 228-238: both `get` calls, the comparison, then either the refusal (which reads the
   * source's name) or the two new amounts. The exceptions arise in that order.
   */
  function PlanMove(fromCat: Json, toCat: Json, amount: int): (r: Result<Plan, Exception>)
    ensures r.Success? ==> Budgeted(fromCat) == Success(r.value.fromBudgeted)
    ensures r.Success? && r.value.Reject? ==>
      && r.value.fromBudgeted < amount
      && Subscript(fromCat, "name") == Success(r.value.fromName)
    ensures r.Success? && r.value.Transfer? ==>
      && amount <= r.value.fromBudgeted
      && Budgeted(toCat) == Success(r.value.toBudgeted)
      && r.value.newFrom == r.value.fromBudgeted - amount
      && r.value.newTo == r.value.toBudgeted + amount
      && r.value.newFrom + r.value.newTo == r.value.fromBudgeted + r.value.toBudgeted
      && r.value.newFrom >= 0
    ensures Budgeted(fromCat).Success? && Budgeted(toCat).Success? && Subscript(fromCat, "name").Success? ==>
      && r.Success?
      && (r.value.Reject? <==> Budgeted(fromCat).value < amount)
    ensures Budgeted(fromCat).Success? && Budgeted(toCat).Success? && amount <= Budgeted(fromCat).value ==>
      r.Success? && r.value.Transfer?
    ensures !fromCat.JObj? || !toCat.JObj? ==> r.Failure? && r.error.AttributeError?
  {
    match Get(fromCat, "budgeted", JInt(0))
    case Failure(x) => Failure(x)
    case Success(fromValue) =>
      match Get(toCat, "budgeted", JInt(0))
      case Failure(x) => Failure(x)
      case Success(toValue) =>
        match AsInt(fromValue, "<")
        case Failure(x) => Failure(x)
        case Success(fb) =>
          if fb < amount then
            (match Subscript(fromCat, "name")
             case Failure(x) => Failure(x)
             case Success(name) => Success(Reject(name, fb)))
          else
            (match AsInt(toValue, "+")
             case Failure(x) => Failure(x)
             case Success(tb) => Success(Transfer(fb, tb, fb - amount, tb + amount)))
  }

  /** `from_cat['name']` and `to_cat['name']`, read for the report. */
  function Names(fromCat: Json, toCat: Json): (r: Result<(Json, Json), Exception>)
    ensures r.Success? <==> Subscript(fromCat, "name").Success? && Subscript(toCat, "name").Success?
    ensures r.Success? ==> r.value == (Subscript(fromCat, "name").value, Subscript(toCat, "name").value)
  {
    match Subscript(fromCat, "name")
    case Failure(x) => Failure(x)
    case Success(f) =>
      match Subscript(toCat, "name")
      case Failure(x) => Failure(x)
      case Success(t) => Success((f, t))
  }

  /** Which of the two writes failed, and how. */
  datatype WriteFailure = WriteFailure(index: nat, fault: Fault)

  /** Lines 240-245: the source's update, then (only if it succeeded) the destination's. */
  function WriteBoth(e: Env, w: World, bearer: string, b: string, from: string, to: string,
                     month: string, newFrom: int, newTo: int): (r: (Option<WriteFailure>, World))
    ensures var first := Exchange(e, w, bearer, UpdateCategoryBudget(b, from, month, newFrom));
      && (first.0.Failure? ==> r == (Some(WriteFailure(1, first.0.error)), first.1))
      && (first.0.Success? ==>
           var second := Exchange(e, first.1, bearer, UpdateCategoryBudget(b, to, month, newTo));
           r.1 == second.1
           && (second.0.Failure? ==> r.0 == Some(WriteFailure(2, second.0.error)))
           && (second.0.Success? ==> r.0 == None))
  {
    var (r1, w1) := Exchange(e, w, bearer, UpdateCategoryBudget(b, from, month, newFrom));
    if r1.Failure? then (Some(WriteFailure(1, r1.error)), w1)
    else
      var (r2, w2) := Exchange(e, w1, bearer, UpdateCategoryBudget(b, to, month, newTo));
      if r2.Failure? then (Some(WriteFailure(2, r2.error)), w2) else (None, w2)
  }

  /**
   * What the tool reports. `SameCategory` and `PartiallyApplied` only arise in the corrected tool.
   * Every outcome except `Moved` is rendered as an error message; `Failed` through `format_error`.
   */
  datatype MoveOutcome =
    | Moved(fromName: Json, toName: Json, amount: int,
            fromBefore: int, fromAfter: int, toBefore: int, toAfter: int)
    | Insufficient(fromName: Json, fromBudgeted: int, amount: int)
    | Failed(fault: Fault)
    | SameCategory
    | PartiallyApplied(fault: Fault, fromAfter: int)

  function Reads(b: string, from: string, to: string): seq<Call> {
    [GetCategory(b, from), GetCategory(b, to)]
  }

  function Updates(b: string, from: string, to: string, month: string, newFrom: int, newTo: int): seq<Call> {
    [UpdateCategoryBudget(b, from, month, newFrom), UpdateCategoryBudget(b, to, month, newTo)]
  }

  /** `ynab_move_money` after both reads, with the categories they returned. */
  function MoveAfterReads(e: Env, w: World, bearer: string, b: string, from: string, to: string,
                          month: string, amount: int, fromCat: Json, toCat: Json): (MoveOutcome, World)
  {
    match PlanMove(fromCat, toCat, amount)
    case Failure(x) => (Failed(Raised(x)), w)
    case Success(plan) =>
      if plan.Reject? then (Insufficient(plan.fromName, plan.fromBudgeted, amount), w)
      else
        var (failure, w') := WriteBoth(e, w, bearer, b, from, to, month, plan.newFrom, plan.newTo);
        if failure.Some? then (Failed(failure.value.fault), w')
        else
          match Names(fromCat, toCat)
          case Failure(x) => (Failed(Raised(x)), w')
          case Success(names) =>
            (Moved(names.0, names.1, amount, plan.fromBudgeted, plan.newFrom, plan.toBudgeted, plan.newTo), w')
  }

  /** `ynab_move_money` once the client holds `bearer`: the two reads, then the rest. */
  function MoveWithToken(e: Env, w: World, bearer: string, b: string, from: string, to: string,
                         month: string, amount: int): (MoveOutcome, World)
  {
    var (r1, w1) := Exchange(e, w, bearer, GetCategory(b, from));
    if r1.Failure? then (Failed(r1.error), w1)
    else
      var (r2, w2) := Exchange(e, w1, bearer, GetCategory(b, to));
      if r2.Failure? then (Failed(r2.error), w2)
      else MoveAfterReads(e, w2, bearer, b, from, to, month, amount, r1.value, r2.value)
  }

  /** `ynab_move_money` as written: the outcome and the world afterwards. */
  function MoveRun(e: Env, w: World, p: MoveMoneyCategoryInput, today: Date,
                   environ: Option<string>, keyring: Keyring): (MoveOutcome, World)
    requires today.Valid()
  {
    match ClientToken(None, environ, keyring)
    case Failure(x) => (Failed(Raised(x)), w)
    case Success(bearer) =>
      MoveWithToken(e, w, bearer, p.budgetId, p.fromCategoryId, p.toCategoryId,
                    MoveMonth(p, today), DollarsToMilliunits(p.amount))
  }

  /** `ynab_move_money`, step by step against the service. */
  method MoveMoney(remote: Remote, p: MoveMoneyCategoryInput, today: Date,
                   environ: Option<string>, keyring: Keyring) returns (o: MoveOutcome)
    requires p.Valid() && today.Valid()
    modifies remote
    ensures (o, remote.State()) == MoveRun(remote.env, old(remote.State()), p, today, environ, keyring)
  {
    var month := MoveMonth(p, today);
    var amount := DollarsToMilliunits(p.amount);
    var created := YnabClient.Create(None, environ, keyring);
    if created.Failure? {
      return Failed(created.error);
    }
    var client := created.value;
    var fromCat := client.GetCategory(remote, p.budgetId, p.fromCategoryId);
    if fromCat.Failure? {
      client.Close();
      return Failed(fromCat.error);
    }
    var toCat := client.GetCategory(remote, p.budgetId, p.toCategoryId);
    if toCat.Failure? {
      client.Close();
      return Failed(toCat.error);
    }
    var plan := PlanMove(fromCat.value, toCat.value, amount);
    if plan.Failure? {
      client.Close();
      return Failed(Raised(plan.error));
    }
    if plan.value.Reject? {
      client.Close();
      return Insufficient(plan.value.fromName, plan.value.fromBudgeted, amount);
    }
    var w1 := client.UpdateCategoryBudget(remote, p.budgetId, p.fromCategoryId, month, plan.value.newFrom);
    if w1.Failure? {
      client.Close();
      return Failed(w1.error);
    }
    var w2 := client.UpdateCategoryBudget(remote, p.budgetId, p.toCategoryId, month, plan.value.newTo);
    client.Close();
    if w2.Failure? {
      return Failed(w2.error);
    }
    var names := Names(fromCat.value, toCat.value);
    if names.Failure? {
      return Failed(Raised(names.error));
    }
    o := Moved(names.value.0, names.value.1, amount, plan.value.fromBudgeted, plan.value.newFrom,
               plan.value.toBudgeted, plan.value.newTo);
  }

  /** A category read the service answers: the category with the current month's amounts. */
  lemma {:induction false} ReadCategory(e: Env, w: World, bearer: string, b: string, id: string)
    requires Serves(e, |w.log|, bearer) && id in w.categories
    ensures Exchange(e, w, bearer, GetCategory(b, id)) ==
      (Success(CategoryJson(id, w.categories[id], e.currentMonth)), World(w.categories, w.log + [GetCategory(b, id)]))
  {
    ExchangeDeliversAnswer(e, w, bearer, GetCategory(b, id), CategoryJson(id, w.categories[id], e.currentMonth));
  }

  /** A month-scoped category read the service answers: that month's amounts. */
  lemma {:induction false} ReadMonthCategory(e: Env, w: World, bearer: string, b: string, month: string, id: string)
    requires Serves(e, |w.log|, bearer) && id in w.categories
    ensures Exchange(e, w, bearer, GetMonthCategory(b, month, id)) ==
      (Success(CategoryJson(id, w.categories[id], month)), World(w.categories, w.log + [GetMonthCategory(b, month, id)]))
  {
    ExchangeDeliversAnswer(e, w, bearer, GetMonthCategory(b, month, id), CategoryJson(id, w.categories[id], month));
  }

  /** A budget update the service answers succeeds and sets that category's amount for that month. */
  lemma {:induction false} WriteCategory(e: Env, w: World, bearer: string, b: string, id: string, month: string, v: int)
    requires Serves(e, |w.log|, bearer) && id in w.categories
    ensures Exchange(e, w, bearer, UpdateCategoryBudget(b, id, month, v)) ==
      (Success(CategoryJson(id, SetBudgeted(w.categories[id], month, v), month)),
       World(w.categories[id := SetBudgeted(w.categories[id], month, v)], w.log + [UpdateCategoryBudget(b, id, month, v)]))
  {
    var c := UpdateCategoryBudget(b, id, month, v);
    ExchangeDeliversAnswer(e, w, bearer, c, CategoryJson(id, SetBudgeted(w.categories[id], month, v), month));
  }

  /** What the tool reads from a category the service returned. */
  lemma {:induction false} CategoryJsonFields(id: string, c: Category, month: string)
    ensures Budgeted(CategoryJson(id, c, month)) == Success(if month in c.budgeted then c.budgeted[month] else 0)
    ensures Subscript(CategoryJson(id, c, month), "name").Success? <==> c.name.Some?
    ensures c.name.Some? ==> Subscript(CategoryJson(id, c, month), "name") == Success(JStr(c.name.value))
  {
    var j := CategoryJson(id, c, month);
    assert "budgeted" in j.fields <==> month in c.budgeted;
    assert "name" in j.fields <==> c.name.Some?;
    if month in c.budgeted {
      assert j.fields["budgeted"] == JInt(c.budgeted[month]);
    }
  }

  /** Both category reads answered by the service: the tool goes on with the current month's view of both. */
  lemma {:induction false} ServedReads(e: Env, w: World, bearer: string, b: string, from: string, to: string,
                                       month: string, amount: int)
    requires Serves(e, |w.log|, bearer) && Serves(e, |w.log| + 1, bearer)
    requires from in w.categories && to in w.categories
    ensures MoveWithToken(e, w, bearer, b, from, to, month, amount) ==
      MoveAfterReads(e, World(w.categories, w.log + Reads(b, from, to)), bearer, b, from, to, month, amount,
                     CategoryJson(from, w.categories[from], e.currentMonth), CategoryJson(to, w.categories[to], e.currentMonth))
  {
    ReadCategory(e, w, bearer, b, from);
    var w1 := World(w.categories, w.log + [GetCategory(b, from)]);
    ReadCategory(e, w1, bearer, b, to);
    assert w1.log + [GetCategory(b, to)] == w.log + Reads(b, from, to);
  }

  /** The plan made from two categories as the service returns them for `month`, when the source cannot cover the amount. */
  lemma {:induction false} PlanOfCategories(cats: map<string, Category>, from: string, to: string, month: string, amount: int)
    requires from in cats && to in cats
    ensures var bf := BudgetedIn(cats, from, month);
      var plan := PlanMove(CategoryJson(from, cats[from], month), CategoryJson(to, cats[to], month), amount);
      && (bf < amount && cats[from].name.Some? ==> plan == Success(Reject(JStr(cats[from].name.value), bf)))
      && (bf < amount ==> plan.Failure? || plan.value.Reject?)
  {
    CategoryJsonFields(from, cats[from], month);
    CategoryJsonFields(to, cats[to], month);
  }

  /**
   * The plan made from two categories as the service returns them for `month`, when the source
   * covers the amount: `bf` and `bt` are their amounts, `nf` and `nt` the amounts to write.
   */
  lemma {:induction false} PlannedTransfer(cats: map<string, Category>, from: string, to: string, month: string, amount: int,
                                           bf: int, bt: int, nf: int, nt: int)
    requires from in cats && to in cats
    requires bf == BudgetedIn(cats, from, month) && bt == BudgetedIn(cats, to, month)
    requires amount <= bf && nf == bf - amount && nt == bt + amount
    ensures PlanMove(CategoryJson(from, cats[from], month), CategoryJson(to, cats[to], month), amount) ==
      Success(Transfer(bf, bt, nf, nt))
  {
    CategoryJsonFields(from, cats[from], month);
    CategoryJsonFields(to, cats[to], month);
  }

  /** The names read from two named categories as the service returns them. */
  lemma {:induction false} NamesOfCategories(cats: map<string, Category>, from: string, to: string, month: string)
    requires from in cats && to in cats && cats[from].name.Some? && cats[to].name.Some?
    ensures Names(CategoryJson(from, cats[from], month), CategoryJson(to, cats[to], month)) ==
      Success((JStr(cats[from].name.value), JStr(cats[to].name.value)))
  {
    CategoryJsonFields(from, cats[from], month);
    CategoryJsonFields(to, cats[to], month);
  }

  /** The table after the source's update and then the destination's. */
  function Written(cats: map<string, Category>, from: string, to: string, month: string, newFrom: int, newTo: int)
    : map<string, Category>
    requires from in cats && to in cats
  {
    var c1 := cats[from := SetBudgeted(cats[from], month, newFrom)];
    c1[to := SetBudgeted(c1[to], month, newTo)]
  }

  /** Both writes set their month's amount, the destination's last; nothing else changes. */
  lemma {:induction false} WrittenBudgeted(cats: map<string, Category>, from: string, to: string, month: string,
                                           newFrom: int, newTo: int, id: string, m: string)
    requires from in cats && to in cats
    ensures BudgetedIn(Written(cats, from, to, month, newFrom, newTo), id, m) ==
      if id == to && m == month then newTo
      else if id == from && m == month then newFrom
      else BudgetedIn(cats, id, m)
  {
    var c1 := cats[from := SetBudgeted(cats[from], month, newFrom)];
    SetBudgetedIn(cats, from, month, newFrom, id, m);
    SetBudgetedIn(c1, to, month, newTo, id, m);
  }

  /** Both updates answered by the service. */
  lemma {:induction false} ServedWrites(e: Env, w: World, bearer: string, b: string, from: string, to: string,
                                        month: string, newFrom: int, newTo: int)
    requires Serves(e, |w.log|, bearer) && Serves(e, |w.log| + 1, bearer)
    requires from in w.categories && to in w.categories
    ensures WriteBoth(e, w, bearer, b, from, to, month, newFrom, newTo) ==
      (None, World(Written(w.categories, from, to, month, newFrom, newTo), w.log + Updates(b, from, to, month, newFrom, newTo)))
  {
    WriteCategory(e, w, bearer, b, from, month, newFrom);
    var c1 := w.categories[from := SetBudgeted(w.categories[from], month, newFrom)];
    var w1 := World(c1, w.log + [UpdateCategoryBudget(b, from, month, newFrom)]);
    WriteCategory(e, w1, bearer, b, to, month, newTo);
    assert w1.log + [UpdateCategoryBudget(b, to, month, newTo)] == w.log + Updates(b, from, to, month, newFrom, newTo);
  }

  /** The source's update answered by the service, the destination's failing. */
  lemma {:induction false} SecondWriteFails(e: Env, w: World, bearer: string, b: string, from: string, to: string,
                                            month: string, newFrom: int, newTo: int)
    requires Serves(e, |w.log|, bearer) && from in w.categories
    requires |w.log| + 1 in e.script && ResponseResult(e.script[|w.log| + 1]).Failure?
    ensures WriteBoth(e, w, bearer, b, from, to, month, newFrom, newTo) ==
      (Some(WriteFailure(2, ResponseResult(e.script[|w.log| + 1]).error)),
       World(w.categories[from := SetBudgeted(w.categories[from], month, newFrom)],
             w.log + Updates(b, from, to, month, newFrom, newTo)))
  {
    WriteCategory(e, w, bearer, b, from, month, newFrom);
    var c1 := w.categories[from := SetBudgeted(w.categories[from], month, newFrom)];
    var w1 := World(c1, w.log + [UpdateCategoryBudget(b, from, month, newFrom)]);
    var second := UpdateCategoryBudget(b, to, month, newTo);
    assert Step(e, w1, bearer, second) == (e.script[|w.log| + 1], World(c1, w1.log + [second]));
    assert w1.log + [second] == w.log + Updates(b, from, to, month, newFrom, newTo);
  }

  /** Completed writes issued exactly the two updates. */
  lemma {:induction false} WriteBothLog(e: Env, w: World, bearer: string, b: string, from: string, to: string,
                                        month: string, newFrom: int, newTo: int)
    ensures WriteBoth(e, w, bearer, b, from, to, month, newFrom, newTo).0.None? ==>
      WriteBoth(e, w, bearer, b, from, to, month, newFrom, newTo).1.log == w.log + Updates(b, from, to, month, newFrom, newTo)
  {
    var u1, u2 := UpdateCategoryBudget(b, from, month, newFrom), UpdateCategoryBudget(b, to, month, newTo);
    assert w.log + [u1] + [u2] == w.log + Updates(b, from, to, month, newFrom, newTo);
  }

  /** After the reads: a refusal changes nothing, a completed move issued exactly the two updates. */
  lemma {:induction false} AfterReadsOutcome(e: Env, w: World, bearer: string, b: string, from: string, to: string,
                                             month: string, amount: int, fromCat: Json, toCat: Json)
    ensures var (o, w') := MoveAfterReads(e, w, bearer, b, from, to, month, amount, fromCat, toCat);
      && (o.Insufficient? ==> w' == w && o.amount == amount && o.fromBudgeted < amount)
      && (o.Moved? ==>
            && w'.log == w.log + Updates(b, from, to, month, o.fromAfter, o.toAfter)
            && o.amount == amount && o.fromAfter == o.fromBefore - amount && o.toAfter == o.toBefore + amount
            && o.fromAfter >= 0)
  {
    var plan := PlanMove(fromCat, toCat, amount);
    if plan.Success? && plan.value.Transfer? {
      WriteBothLog(e, w, bearer, b, from, to, month, plan.value.newFrom, plan.value.newTo);
    }
  }

  /** After the reads, when the plan is a transfer and both writes were answered. */
  lemma {:induction false} WrittenAfterReads(e: Env, w: World, bearer: string, b: string, from: string, to: string,
                                             month: string, amount: int, fromCat: Json, toCat: Json,
                                             bf: int, bt: int, nf: int, nt: int, w': World)
    requires PlanMove(fromCat, toCat, amount) == Success(Transfer(bf, bt, nf, nt))
    requires WriteBoth(e, w, bearer, b, from, to, month, nf, nt) == (None, w')
    ensures MoveAfterReads(e, w, bearer, b, from, to, month, amount, fromCat, toCat).1 == w'
    ensures CorrectedAfterReads(e, w, bearer, b, from, to, month, amount, fromCat, toCat).1 == w'
    ensures Names(fromCat, toCat).Success? ==>
      var names := Names(fromCat, toCat).value;
      && MoveAfterReads(e, w, bearer, b, from, to, month, amount, fromCat, toCat) ==
           (Moved(names.0, names.1, amount, bf, nf, bt, nt), w')
      && CorrectedAfterReads(e, w, bearer, b, from, to, month, amount, fromCat, toCat) ==
           (Moved(names.0, names.1, amount, bf, nf, bt, nt), w')
  {
  }

  /** After the reads, when the plan is a transfer and the second write failed. */
  lemma {:induction false} SecondFailureAfterReads(e: Env, w: World, bearer: string, b: string, from: string, to: string,
                                                   month: string, amount: int, fromCat: Json, toCat: Json,
                                                   bf: int, bt: int, nf: int, nt: int, f: Fault, w': World)
    requires PlanMove(fromCat, toCat, amount) == Success(Transfer(bf, bt, nf, nt))
    requires WriteBoth(e, w, bearer, b, from, to, month, nf, nt) == (Some(WriteFailure(2, f)), w')
    ensures MoveAfterReads(e, w, bearer, b, from, to, month, amount, fromCat, toCat) == (Failed(f), w')
    ensures CorrectedAfterReads(e, w, bearer, b, from, to, month, amount, fromCat, toCat) == (PartiallyApplied(f, nf), w')
  {
  }

  /** After the reads, when the plan is not a transfer: nothing is written. */
  lemma {:induction false} UnwrittenAfterReads(e: Env, w: World, bearer: string, b: string, from: string, to: string,
                                               month: string, amount: int, fromCat: Json, toCat: Json)
    requires PlanMove(fromCat, toCat, amount).Failure? || PlanMove(fromCat, toCat, amount).value.Reject?
    ensures MoveAfterReads(e, w, bearer, b, from, to, month, amount, fromCat, toCat).1 == w
    ensures CorrectedAfterReads(e, w, bearer, b, from, to, month, amount, fromCat, toCat).1 == w
    ensures PlanMove(fromCat, toCat, amount).Success? ==>
      var plan := PlanMove(fromCat, toCat, amount).value;
      && MoveAfterReads(e, w, bearer, b, from, to, month, amount, fromCat, toCat) ==
           (Insufficient(plan.fromName, plan.fromBudgeted, amount), w)
      && CorrectedAfterReads(e, w, bearer, b, from, to, month, amount, fromCat, toCat) ==
           (Insufficient(plan.fromName, plan.fromBudgeted, amount), w)
  {
  }

  /**
   * After reads that returned `w.categories` as seen in month `view`: with both writes answered
   * and enough budgeted, both tools complete the move and write the two new amounts `nf`, `nt`.
   */
  lemma {:induction false} TransferAfterReads(e: Env, w: World, bearer: string, b: string, from: string, to: string,
                                              month: string, amount: int, view: string, bf: int, bt: int, nf: int, nt: int)
    requires Serves(e, |w.log|, bearer) && Serves(e, |w.log| + 1, bearer)
    requires from in w.categories && to in w.categories
    requires bf == BudgetedIn(w.categories, from, view) && bt == BudgetedIn(w.categories, to, view)
    requires amount <= bf && nf == bf - amount && nt == bt + amount
    ensures var cats := w.categories;
      var fromCat, toCat := CategoryJson(from, cats[from], view), CategoryJson(to, cats[to], view);
      var w' := World(Written(cats, from, to, month, nf, nt), w.log + Updates(b, from, to, month, nf, nt));
      && MoveAfterReads(e, w, bearer, b, from, to, month, amount, fromCat, toCat).1 == w'
      && CorrectedAfterReads(e, w, bearer, b, from, to, month, amount, fromCat, toCat).1 == w'
    ensures var cats := w.categories;
      var fromCat, toCat := CategoryJson(from, cats[from], view), CategoryJson(to, cats[to], view);
      cats[from].name.Some? && cats[to].name.Some? ==>
        var r := (Moved(JStr(cats[from].name.value), JStr(cats[to].name.value), amount, bf, nf, bt, nt),
                  World(Written(cats, from, to, month, nf, nt), w.log + Updates(b, from, to, month, nf, nt)));
        && MoveAfterReads(e, w, bearer, b, from, to, month, amount, fromCat, toCat) == r
        && CorrectedAfterReads(e, w, bearer, b, from, to, month, amount, fromCat, toCat) == r
  {
    var cats := w.categories;
    PlannedTransfer(cats, from, to, view, amount, bf, bt, nf, nt);
    ServedWrites(e, w, bearer, b, from, to, month, nf, nt);
    if cats[from].name.Some? && cats[to].name.Some? {
      NamesOfCategories(cats, from, to, view);
    }
    WrittenAfterReads(e, w, bearer, b, from, to, month, amount,
                      CategoryJson(from, cats[from], view), CategoryJson(to, cats[to], view), bf, bt, nf, nt,
                      World(Written(cats, from, to, month, nf, nt), w.log + Updates(b, from, to, month, nf, nt)));
  }

  /**
   * After reads that returned `w.categories` as seen in month `view`: with the source's update
   * answered, the destination's failing and enough budgeted, the source alone has been written.
   */
  lemma {:induction false} FailedSecondAfterReads(e: Env, w: World, bearer: string, b: string, from: string, to: string,
                                                  month: string, amount: int, view: string, bf: int, bt: int, nf: int, nt: int)
    requires Serves(e, |w.log|, bearer) && from in w.categories && to in w.categories
    requires |w.log| + 1 in e.script && ResponseResult(e.script[|w.log| + 1]).Failure?
    requires bf == BudgetedIn(w.categories, from, view) && bt == BudgetedIn(w.categories, to, view)
    requires amount <= bf && nf == bf - amount && nt == bt + amount
    ensures var cats := w.categories;
      var fromCat, toCat := CategoryJson(from, cats[from], view), CategoryJson(to, cats[to], view);
      var f := ResponseResult(e.script[|w.log| + 1]).error;
      var w' := World(cats[from := SetBudgeted(cats[from], month, nf)], w.log + Updates(b, from, to, month, nf, nt));
      && MoveAfterReads(e, w, bearer, b, from, to, month, amount, fromCat, toCat) == (Failed(f), w')
      && CorrectedAfterReads(e, w, bearer, b, from, to, month, amount, fromCat, toCat) == (PartiallyApplied(f, nf), w')
  {
    var cats := w.categories;
    PlannedTransfer(cats, from, to, view, amount, bf, bt, nf, nt);
    SecondWriteFails(e, w, bearer, b, from, to, month, nf, nt);
    SecondFailureAfterReads(e, w, bearer, b, from, to, month, amount,
                            CategoryJson(from, cats[from], view), CategoryJson(to, cats[to], view), bf, bt, nf, nt,
                            ResponseResult(e.script[|w.log| + 1]).error,
                            World(cats[from := SetBudgeted(cats[from], month, nf)], w.log + Updates(b, from, to, month, nf, nt)));
  }

  /** The tool as written against a fault-free service: a covered move between named categories completes. */
  lemma {:induction false} TransferWithToken(e: Env, w: World, bearer: string, b: string, from: string, to: string,
                                             month: string, amount: int, bf: int, bt: int, nf: int, nt: int)
    requires forall k :: k in e.script ==> k < |w.log|
    requires bearer == e.token
    requires from in w.categories && to in w.categories
    requires w.categories[from].name.Some? && w.categories[to].name.Some?
    requires bf == BudgetedIn(w.categories, from, e.currentMonth) && bt == BudgetedIn(w.categories, to, e.currentMonth)
    requires amount <= bf && nf == bf - amount && nt == bt + amount
    ensures var cats := w.categories;
      MoveWithToken(e, w, bearer, b, from, to, month, amount) ==
        (Moved(JStr(cats[from].name.value), JStr(cats[to].name.value), amount, bf, nf, bt, nt),
         World(Written(cats, from, to, month, nf, nt), w.log + Reads(b, from, to) + Updates(b, from, to, month, nf, nt)))
  {
    assert Serves(e, |w.log|, bearer) && Serves(e, |w.log| + 1, bearer);
    ServedReads(e, w, bearer, b, from, to, month, amount);
    var w2 := World(w.categories, w.log + Reads(b, from, to));
    assert Serves(e, |w2.log|, bearer) && Serves(e, |w2.log| + 1, bearer);
    TransferAfterReads(e, w2, bearer, b, from, to, month, amount, e.currentMonth, bf, bt, nf, nt);
  }

  /** The tool as written when only the destination's update fails: the source alone was written. */
  lemma {:induction false} FailedSecondWithToken(e: Env, w: World, bearer: string, b: string, from: string, to: string,
                                                 month: string, amount: int, bf: int, bt: int, nf: int, nt: int)
    requires bearer == e.token
    requires e.script.Keys == {|w.log| + 3} && ResponseResult(e.script[|w.log| + 3]).Failure?
    requires from in w.categories && to in w.categories
    requires bf == BudgetedIn(w.categories, from, e.currentMonth) && bt == BudgetedIn(w.categories, to, e.currentMonth)
    requires amount <= bf && nf == bf - amount && nt == bt + amount
    ensures var cats := w.categories;
      MoveWithToken(e, w, bearer, b, from, to, month, amount) ==
        (Failed(ResponseResult(e.script[|w.log| + 3]).error),
         World(cats[from := SetBudgeted(cats[from], month, nf)], w.log + Reads(b, from, to) + Updates(b, from, to, month, nf, nt)))
  {
    assert Serves(e, |w.log|, bearer) && Serves(e, |w.log| + 1, bearer);
    ServedReads(e, w, bearer, b, from, to, month, amount);
    var w2 := World(w.categories, w.log + Reads(b, from, to));
    assert |w2.log| + 1 == |w.log| + 3 && Serves(e, |w2.log|, bearer);
    FailedSecondAfterReads(e, w2, bearer, b, from, to, month, amount, e.currentMonth, bf, bt, nf, nt);
  }

  /** Once the client holds a token: what a refusal and a completed move did to the service. */
  lemma {:induction false} WithTokenOutcome(e: Env, w: World, bearer: string, b: string, from: string, to: string,
                                            month: string, amount: int)
    ensures var (o, w') := MoveWithToken(e, w, bearer, b, from, to, month, amount);
      && (o.Insufficient? ==>
            w'.categories == w.categories && w'.log == w.log + Reads(b, from, to)
            && o.amount == amount && o.fromBudgeted < amount)
      && (o.Moved? ==>
            && w'.log == w.log + Reads(b, from, to) + Updates(b, from, to, month, o.fromAfter, o.toAfter)
            && o.amount == amount && o.fromAfter == o.fromBefore - amount && o.toAfter == o.toBefore + amount
            && o.fromAfter >= 0)
  {
    var (r1, w1) := Exchange(e, w, bearer, GetCategory(b, from));
    if r1.Success? {
      var (r2, w2) := Exchange(e, w1, bearer, GetCategory(b, to));
      if r2.Success? {
        AfterReadsOutcome(e, w2, bearer, b, from, to, month, amount, r1.value, r2.value);
        assert w2.log == w.log + Reads(b, from, to);
        assert w2.categories == w.categories;
      }
    }
  }

  /** The tool as written against a fault-free service: a move this month's amount cannot cover writes nothing. */
  lemma {:induction false} RefusalWithToken(e: Env, w: World, bearer: string, b: string, from: string, to: string,
                                            month: string, amount: int)
    requires forall k :: k in e.script ==> k < |w.log|
    requires bearer == e.token
    requires from in w.categories && to in w.categories
    requires BudgetedIn(w.categories, from, e.currentMonth) < amount
    ensures MoveWithToken(e, w, bearer, b, from, to, month, amount).1 == World(w.categories, w.log + Reads(b, from, to))
    ensures w.categories[from].name.Some? ==>
      MoveWithToken(e, w, bearer, b, from, to, month, amount).0 ==
        Insufficient(JStr(w.categories[from].name.value), BudgetedIn(w.categories, from, e.currentMonth), amount)
  {
    var cats, now := w.categories, e.currentMonth;
    assert Serves(e, |w.log|, bearer) && Serves(e, |w.log| + 1, bearer);
    ServedReads(e, w, bearer, b, from, to, month, amount);
    var w2 := World(cats, w.log + Reads(b, from, to));
    PlanOfCategories(cats, from, to, now, amount);
    UnwrittenAfterReads(e, w2, bearer, b, from, to, month, amount,
                        CategoryJson(from, cats[from], now), CategoryJson(to, cats[to], now));
  }

  /**
   * Against a fault-free service, a move from a named category whose current-month amount is
   * below the requested amount is refused with that amount, after the two reads and no update.
   */
  lemma {:induction false} RefusesShortCurrentMonth(e: Env, w: World, p: MoveMoneyCategoryInput, today: Date,
                                 environ: Option<string>, keyring: Keyring)
    requires today.Valid() && FaultFree(e, w, environ, keyring)
    requires p.fromCategoryId in w.categories && p.toCategoryId in w.categories
    requires w.categories[p.fromCategoryId].name.Some?
    requires BudgetedIn(w.categories, p.fromCategoryId, e.currentMonth) < DollarsToMilliunits(p.amount)
    ensures var (o, w') := MoveRun(e, w, p, today, environ, keyring);
      && o.Insufficient?
      && o.fromBudgeted == BudgetedIn(w.categories, p.fromCategoryId, e.currentMonth)
      && o.amount == DollarsToMilliunits(p.amount)
      && w' == World(w.categories, w.log + Reads(p.budgetId, p.fromCategoryId, p.toCategoryId))
  {
    var b, from, to, month, amount := p.budgetId, p.fromCategoryId, p.toCategoryId, MoveMonth(p, today), DollarsToMilliunits(p.amount);
    assert MoveRun(e, w, p, today, environ, keyring) == MoveWithToken(e, w, e.token, b, from, to, month, amount);
    RefusalWithToken(e, w, e.token, b, from, to, month, amount);
  }

  /** A refused move issued the two reads and nothing else, and the table is unchanged. */
  lemma {:induction false} RejectionWritesNothing(e: Env, w: World, p: MoveMoneyCategoryInput, today: Date,
                               environ: Option<string>, keyring: Keyring)
    requires today.Valid()
    requires MoveRun(e, w, p, today, environ, keyring).0.Insufficient?
    ensures var (o, w') := MoveRun(e, w, p, today, environ, keyring);
      && w'.categories == w.categories
      && w'.log == w.log + Reads(p.budgetId, p.fromCategoryId, p.toCategoryId)
      && o.amount == DollarsToMilliunits(p.amount)
      && o.fromBudgeted < o.amount
  {
    var bearer := ClientToken(None, environ, keyring).value;
    WithTokenOutcome(e, w, bearer, p.budgetId, p.fromCategoryId, p.toCategoryId, MoveMonth(p, today), DollarsToMilliunits(p.amount));
  }

  /**
   * A completed move issued exactly the two reads and then the two updates, the source's first,
   * both for the chosen month; the new amounts conserve the total and leave the source non-negative.
   */
  lemma {:induction false} MovedWritesInOrder(e: Env, w: World, p: MoveMoneyCategoryInput, today: Date,
                           environ: Option<string>, keyring: Keyring)
    requires today.Valid()
    requires MoveRun(e, w, p, today, environ, keyring).0.Moved?
    ensures var (o, w') := MoveRun(e, w, p, today, environ, keyring);
      && w'.log == w.log + Reads(p.budgetId, p.fromCategoryId, p.toCategoryId)
                         + Updates(p.budgetId, p.fromCategoryId, p.toCategoryId, MoveMonth(p, today), o.fromAfter, o.toAfter)
      && o.amount == DollarsToMilliunits(p.amount)
      && o.fromAfter == o.fromBefore - o.amount
      && o.toAfter == o.toBefore + o.amount
      && o.fromAfter + o.toAfter == o.fromBefore + o.toBefore
      && o.fromAfter >= 0
  {
    var bearer := ClientToken(None, environ, keyring).value;
    WithTokenOutcome(e, w, bearer, p.budgetId, p.fromCategoryId, p.toCategoryId, MoveMonth(p, today), DollarsToMilliunits(p.amount));
  }

  /**
   * When the destination's update fails after the source's succeeded, the tool reports the same
   * generic error as a failure that changed nothing, while the source has already been debited
   * and the destination is untouched.
   */
  lemma {:induction false} SecondWriteFailureKeepsFirst(e: Env, w: World, p: MoveMoneyCategoryInput, today: Date,
                                     environ: Option<string>, keyring: Keyring)
    requires today.Valid()
    requires ClientToken(None, environ, keyring) == Success(e.token)
    requires e.script.Keys == {|w.log| + 3} && ResponseResult(e.script[|w.log| + 3]).Failure?
    requires p.fromCategoryId in w.categories && p.toCategoryId in w.categories
    requires p.fromCategoryId != p.toCategoryId
    requires DollarsToMilliunits(p.amount) <= BudgetedIn(w.categories, p.fromCategoryId, e.currentMonth)
    ensures var (o, w') := MoveRun(e, w, p, today, environ, keyring);
      && o == Failed(ResponseResult(e.script[|w.log| + 3]).error)
      && BudgetedIn(w'.categories, p.fromCategoryId, MoveMonth(p, today)) ==
           BudgetedIn(w.categories, p.fromCategoryId, e.currentMonth) - DollarsToMilliunits(p.amount)
      && p.toCategoryId in w'.categories && w'.categories[p.toCategoryId] == w.categories[p.toCategoryId]
  {
    var b, from, to, month, amount := p.budgetId, p.fromCategoryId, p.toCategoryId, MoveMonth(p, today), DollarsToMilliunits(p.amount);
    var bf, bt := BudgetedIn(w.categories, from, e.currentMonth), BudgetedIn(w.categories, to, e.currentMonth);
    var nf, nt := bf - amount, bt + amount;
    assert MoveRun(e, w, p, today, environ, keyring) == MoveWithToken(e, w, e.token, b, from, to, month, amount);
    FailedSecondWithToken(e, w, e.token, b, from, to, month, amount, bf, bt, nf, nt);
    SetBudgetedIn(w.categories, from, month, nf, from, month);
  }

  /**
   * Moving money from a category to itself, for the current month, raises that category's
   * budget by the amount: both reads see the old value, the second write overwrites the first.
   */
  lemma {:induction false} SelfMoveInflates(e: Env, w: World, p: MoveMoneyCategoryInput, today: Date,
                         environ: Option<string>, keyring: Keyring)
    requires today.Valid() && FaultFree(e, w, environ, keyring)
    requires p.fromCategoryId == p.toCategoryId && p.fromCategoryId in w.categories
    requires w.categories[p.fromCategoryId].name.Some?
    requires MoveMonth(p, today) == e.currentMonth
    requires DollarsToMilliunits(p.amount) <= BudgetedIn(w.categories, p.fromCategoryId, e.currentMonth)
    ensures var (o, w') := MoveRun(e, w, p, today, environ, keyring);
      && o.Moved?
      && BudgetedIn(w'.categories, p.fromCategoryId, e.currentMonth) ==
           BudgetedIn(w.categories, p.fromCategoryId, e.currentMonth) + DollarsToMilliunits(p.amount)
  {
    var b, id, month, amount := p.budgetId, p.fromCategoryId, e.currentMonth, DollarsToMilliunits(p.amount);
    var bf := BudgetedIn(w.categories, id, month);
    var nf, nt := bf - amount, bf + amount;
    assert MoveRun(e, w, p, today, environ, keyring) == MoveWithToken(e, w, e.token, b, id, id, month, amount);
    TransferWithToken(e, w, e.token, b, id, id, month, amount, bf, bf, nf, nt);
    WrittenBudgeted(w.categories, id, id, month, nf, nt, id, month);
  }

  /**
   * A fault-free move between two named categories with enough budgeted this month writes this
   * month's amounts, debited and credited, into the requested month, whatever that month held.
   */
  lemma {:induction false} MovedFromCurrentMonth(e: Env, w: World, p: MoveMoneyCategoryInput, today: Date,
                              environ: Option<string>, keyring: Keyring)
    requires today.Valid() && FaultFree(e, w, environ, keyring)
    requires p.fromCategoryId in w.categories && p.toCategoryId in w.categories
    requires p.fromCategoryId != p.toCategoryId
    requires w.categories[p.fromCategoryId].name.Some? && w.categories[p.toCategoryId].name.Some?
    requires DollarsToMilliunits(p.amount) <= BudgetedIn(w.categories, p.fromCategoryId, e.currentMonth)
    ensures var (o, w') := MoveRun(e, w, p, today, environ, keyring);
      && o.Moved?
      && BudgetedIn(w'.categories, p.fromCategoryId, MoveMonth(p, today)) ==
           BudgetedIn(w.categories, p.fromCategoryId, e.currentMonth) - DollarsToMilliunits(p.amount)
      && BudgetedIn(w'.categories, p.toCategoryId, MoveMonth(p, today)) ==
           BudgetedIn(w.categories, p.toCategoryId, e.currentMonth) + DollarsToMilliunits(p.amount)
  {
    var cats, now := w.categories, e.currentMonth;
    var b, from, to, month, amount := p.budgetId, p.fromCategoryId, p.toCategoryId, MoveMonth(p, today), DollarsToMilliunits(p.amount);
    var bf, bt := BudgetedIn(cats, from, now), BudgetedIn(cats, to, now);
    var nf, nt := bf - amount, bt + amount;
    assert MoveRun(e, w, p, today, environ, keyring) == MoveWithToken(e, w, e.token, b, from, to, month, amount);
    TransferWithToken(e, w, e.token, b, from, to, month, amount, bf, bt, nf, nt);
    WrittenBudgeted(cats, from, to, month, nf, nt, from, month);
    WrittenBudgeted(cats, from, to, month, nf, nt, to, month);
  }

  /** The example move below meets the conditions of `MovedFromCurrentMonth`, for January. */
  lemma {:induction false} StaleMonthExampleConditions(e: Env, w: World, p: MoveMoneyCategoryInput, today: Date)
    requires e == Env("token", "2024-03-01", map[], [], [], [])
    requires w == World(map["A" := Category(Some("Groceries"), map["2024-03-01" := 200000]),
                            "B" := Category(Some("Dining"), map["2024-03-01" := 30000])], [])
    requires p == MoveMoneyCategoryInput("A", "B", 50.0, Some("2024-01-01"))
    requires today == Date(2024, 3, 14)
    ensures p.Valid() && today.Valid() && FaultFree(e, w, Some("token"), NotInstalled)
    ensures MoveMonth(p, today) == "2024-01-01" != e.currentMonth
    ensures DollarsToMilliunits(p.amount) == 50000
    ensures BudgetedIn(w.categories, "A", e.currentMonth) == 200000
    ensures BudgetedIn(w.categories, "B", e.currentMonth) == 30000
    ensures BudgetedIn(w.categories, "A", "2024-01-01") == 0 && BudgetedIn(w.categories, "B", "2024-01-01") == 0
  {
    var jan := "2024-01-01";
    assert IsMonthString(jan) by {
      assert jan[..4] == "2024" && jan[5..7] == "01" && jan[8..] == "01";
    }
    assert jan != e.currentMonth by {
      assert jan[6] != e.currentMonth[6];
    }
    RoundIntegral(50000);
  }

  /**
   * Moving $50 from A (200.00 budgeted this month, nothing in January) to B (30.00 this month)
   * for January reads this month's amounts and writes them into January: January's total for
   * the two categories goes from 0 to 230.00.
   */
  lemma {:induction false} StaleMonthCreatesMoney(e: Env, w: World, p: MoveMoneyCategoryInput, today: Date)
    requires e == Env("token", "2024-03-01", map[], [], [], [])
    requires w == World(map["A" := Category(Some("Groceries"), map["2024-03-01" := 200000]),
                            "B" := Category(Some("Dining"), map["2024-03-01" := 30000])], [])
    requires p == MoveMoneyCategoryInput("A", "B", 50.0, Some("2024-01-01"))
    requires today == Date(2024, 3, 14)
    ensures p.Valid() && today.Valid()
    ensures var (o, w') := MoveRun(e, w, p, today, Some("token"), NotInstalled);
      && o.Moved?
      && BudgetedIn(w.categories, "A", "2024-01-01") + BudgetedIn(w.categories, "B", "2024-01-01") == 0
      && BudgetedIn(w'.categories, "A", "2024-01-01") + BudgetedIn(w'.categories, "B", "2024-01-01") == 230000
  {
    StaleMonthExampleConditions(e, w, p, today);
    MovedFromCurrentMonth(e, w, p, today, Some("token"), NotInstalled);
  }

  /**
   * The corrected tool after both reads: a failure of the second update is reported as a
   * partial move, together with the source's new amount.
   */
  function CorrectedAfterReads(e: Env, w: World, bearer: string, b: string, from: string, to: string,
                               month: string, amount: int, fromCat: Json, toCat: Json): (MoveOutcome, World)
  {
    match PlanMove(fromCat, toCat, amount)
    case Failure(x) => (Failed(Raised(x)), w)
    case Success(plan) =>
      if plan.Reject? then (Insufficient(plan.fromName, plan.fromBudgeted, amount), w)
      else
        var (failure, w') := WriteBoth(e, w, bearer, b, from, to, month, plan.newFrom, plan.newTo);
        if failure.Some? then
          (if failure.value.index == 2 then PartiallyApplied(failure.value.fault, plan.newFrom)
           else Failed(failure.value.fault), w')
        else
          match Names(fromCat, toCat)
          case Failure(x) => (Failed(Raised(x)), w')
          case Success(names) =>
            (Moved(names.0, names.1, amount, plan.fromBudgeted, plan.newFrom, plan.toBudgeted, plan.newTo), w')
  }

  /** The corrected tool once the client holds `bearer`: both reads are for the month written to. */
  function CorrectedWithToken(e: Env, w: World, bearer: string, b: string, from: string, to: string,
                              month: string, amount: int): (MoveOutcome, World)
  {
    var (r1, w1) := Exchange(e, w, bearer, GetMonthCategory(b, month, from));
    if r1.Failure? then (Failed(r1.error), w1)
    else
      var (r2, w2) := Exchange(e, w1, bearer, GetMonthCategory(b, month, to));
      if r2.Failure? then (Failed(r2.error), w2)
      else CorrectedAfterReads(e, w2, bearer, b, from, to, month, amount, r1.value, r2.value)
  }

  /** `ynab_move_money` as evidently intended: a move within one category is refused before any call. */
  function CorrectedMoveRun(e: Env, w: World, p: MoveMoneyCategoryInput, today: Date,
                            environ: Option<string>, keyring: Keyring): (MoveOutcome, World)
    requires today.Valid()
  {
    if p.fromCategoryId == p.toCategoryId then (SameCategory, w)
    else
      match ClientToken(None, environ, keyring)
      case Failure(x) => (Failed(Raised(x)), w)
      case Success(bearer) =>
        CorrectedWithToken(e, w, bearer, p.budgetId, p.fromCategoryId, p.toCategoryId,
                           MoveMonth(p, today), DollarsToMilliunits(p.amount))
  }

  /** The corrected tool, step by step against the service. */
  method CorrectedMoveMoney(remote: Remote, p: MoveMoneyCategoryInput, today: Date,
                            environ: Option<string>, keyring: Keyring) returns (o: MoveOutcome)
    requires p.Valid() && today.Valid()
    modifies remote
    ensures (o, remote.State()) == CorrectedMoveRun(remote.env, old(remote.State()), p, today, environ, keyring)
  {
    if p.fromCategoryId == p.toCategoryId {
      return SameCategory;
    }
    var month := MoveMonth(p, today);
    var amount := DollarsToMilliunits(p.amount);
    var created := YnabClient.Create(None, environ, keyring);
    if created.Failure? {
      return Failed(created.error);
    }
    var client := created.value;
    var fromCat := client.GetMonthCategory(remote, p.budgetId, month, p.fromCategoryId);
    if fromCat.Failure? {
      client.Close();
      return Failed(fromCat.error);
    }
    var toCat := client.GetMonthCategory(remote, p.budgetId, month, p.toCategoryId);
    if toCat.Failure? {
      client.Close();
      return Failed(toCat.error);
    }
    o := CorrectedMoveAfterReads(remote, client, p.budgetId, p.fromCategoryId, p.toCategoryId, month, amount,
                                 fromCat.value, toCat.value);
  }

  /** The corrected tool after both reads, step by step; the client is closed on every path. */
  method CorrectedMoveAfterReads(remote: Remote, client: YnabClient, b: string, from: string, to: string,
                                 month: string, amount: int, fromCat: Json, toCat: Json) returns (o: MoveOutcome)
    modifies remote, client
    ensures (o, remote.State()) ==
      CorrectedAfterReads(remote.env, old(remote.State()), client.token, b, from, to, month, amount, fromCat, toCat)
  {
    var plan := PlanMove(fromCat, toCat, amount);
    if plan.Failure? {
      client.Close();
      return Failed(Raised(plan.error));
    }
    if plan.value.Reject? {
      client.Close();
      return Insufficient(plan.value.fromName, plan.value.fromBudgeted, amount);
    }
    var w1 := client.UpdateCategoryBudget(remote, b, from, month, plan.value.newFrom);
    if w1.Failure? {
      client.Close();
      return Failed(w1.error);
    }
    var w2 := client.UpdateCategoryBudget(remote, b, to, month, plan.value.newTo);
    client.Close();
    if w2.Failure? {
      return PartiallyApplied(w2.error, plan.value.newFrom);
    }
    var names := Names(fromCat, toCat);
    if names.Failure? {
      return Failed(Raised(names.error));
    }
    o := Moved(names.value.0, names.value.1, amount, plan.value.fromBudgeted, plan.value.newFrom,
               plan.value.toBudgeted, plan.value.newTo);
  }

  /** Both month-scoped reads answered by the service: the corrected tool goes on with that month's view of both. */
  lemma {:induction false} CorrectedServedReads(e: Env, w: World, bearer: string, b: string, from: string, to: string,
                                                month: string, amount: int)
    requires Serves(e, |w.log|, bearer) && Serves(e, |w.log| + 1, bearer)
    requires from in w.categories && to in w.categories
    ensures CorrectedWithToken(e, w, bearer, b, from, to, month, amount) ==
      CorrectedAfterReads(e, World(w.categories, w.log + MonthReads(b, month, from, to)), bearer, b, from, to, month, amount,
                          CategoryJson(from, w.categories[from], month), CategoryJson(to, w.categories[to], month))
  {
    ReadMonthCategory(e, w, bearer, b, month, from);
    var w1 := World(w.categories, w.log + [GetMonthCategory(b, month, from)]);
    ReadMonthCategory(e, w1, bearer, b, month, to);
    assert w1.log + [GetMonthCategory(b, month, to)] == w.log + MonthReads(b, month, from, to);
  }

  function MonthReads(b: string, month: string, from: string, to: string): seq<Call> {
    [GetMonthCategory(b, month, from), GetMonthCategory(b, month, to)]
  }

  /** The corrected tool against a fault-free service: a covered move between named categories completes. */
  lemma {:induction false} CorrectedTransferWithToken(e: Env, w: World, bearer: string, b: string, from: string, to: string,
                                                      month: string, amount: int, bf: int, bt: int, nf: int, nt: int)
    requires forall k :: k in e.script ==> k < |w.log|
    requires bearer == e.token
    requires from in w.categories && to in w.categories
    requires bf == BudgetedIn(w.categories, from, month) && bt == BudgetedIn(w.categories, to, month)
    requires amount <= bf && nf == bf - amount && nt == bt + amount
    ensures var cats := w.categories;
      CorrectedWithToken(e, w, bearer, b, from, to, month, amount).1 ==
        World(Written(cats, from, to, month, nf, nt), w.log + MonthReads(b, month, from, to) + Updates(b, from, to, month, nf, nt))
    ensures var cats := w.categories;
      cats[from].name.Some? && cats[to].name.Some? ==>
      CorrectedWithToken(e, w, bearer, b, from, to, month, amount) ==
        (Moved(JStr(cats[from].name.value), JStr(cats[to].name.value), amount, bf, nf, bt, nt),
         World(Written(cats, from, to, month, nf, nt), w.log + MonthReads(b, month, from, to) + Updates(b, from, to, month, nf, nt)))
  {
    assert Serves(e, |w.log|, bearer) && Serves(e, |w.log| + 1, bearer);
    CorrectedServedReads(e, w, bearer, b, from, to, month, amount);
    var w2 := World(w.categories, w.log + MonthReads(b, month, from, to));
    assert Serves(e, |w2.log|, bearer) && Serves(e, |w2.log| + 1, bearer);
    TransferAfterReads(e, w2, bearer, b, from, to, month, amount, month, bf, bt, nf, nt);
  }

  /** The corrected tool against a fault-free service: a move the chosen month cannot cover writes nothing. */
  lemma {:induction false} CorrectedRefusalWithToken(e: Env, w: World, bearer: string, b: string, from: string, to: string,
                                                     month: string, amount: int)
    requires forall k :: k in e.script ==> k < |w.log|
    requires bearer == e.token
    requires from in w.categories && to in w.categories
    requires BudgetedIn(w.categories, from, month) < amount
    ensures CorrectedWithToken(e, w, bearer, b, from, to, month, amount).1 ==
      World(w.categories, w.log + MonthReads(b, month, from, to))
    ensures w.categories[from].name.Some? ==>
      CorrectedWithToken(e, w, bearer, b, from, to, month, amount).0 ==
        Insufficient(JStr(w.categories[from].name.value), BudgetedIn(w.categories, from, month), amount)
  {
    var cats := w.categories;
    assert Serves(e, |w.log|, bearer) && Serves(e, |w.log| + 1, bearer);
    CorrectedServedReads(e, w, bearer, b, from, to, month, amount);
    var w2 := World(cats, w.log + MonthReads(b, month, from, to));
    PlanOfCategories(cats, from, to, month, amount);
    UnwrittenAfterReads(e, w2, bearer, b, from, to, month, amount,
                        CategoryJson(from, cats[from], month), CategoryJson(to, cats[to], month));
  }

  /** The corrected tool when only the destination's update fails: it reports the source's new amount. */
  lemma {:induction false} CorrectedFailedSecondWithToken(e: Env, w: World, bearer: string, b: string, from: string, to: string,
                                                          month: string, amount: int, bf: int, bt: int, nf: int, nt: int)
    requires bearer == e.token
    requires e.script.Keys == {|w.log| + 3} && ResponseResult(e.script[|w.log| + 3]).Failure?
    requires from in w.categories && to in w.categories
    requires bf == BudgetedIn(w.categories, from, month) && bt == BudgetedIn(w.categories, to, month)
    requires amount <= bf && nf == bf - amount && nt == bt + amount
    ensures var cats := w.categories;
      CorrectedWithToken(e, w, bearer, b, from, to, month, amount) ==
        (PartiallyApplied(ResponseResult(e.script[|w.log| + 3]).error, nf),
         World(cats[from := SetBudgeted(cats[from], month, nf)],
               w.log + MonthReads(b, month, from, to) + Updates(b, from, to, month, nf, nt)))
  {
    assert Serves(e, |w.log|, bearer) && Serves(e, |w.log| + 1, bearer);
    CorrectedServedReads(e, w, bearer, b, from, to, month, amount);
    var w2 := World(w.categories, w.log + MonthReads(b, month, from, to));
    assert |w2.log| + 1 == |w.log| + 3 && Serves(e, |w2.log|, bearer);
    FailedSecondAfterReads(e, w2, bearer, b, from, to, month, amount, month, bf, bt, nf, nt);
  }

  /** The corrected tool refuses a move within one category and contacts nothing. */
  lemma {:induction false} CorrectedRefusesSelfMove(e: Env, w: World, p: MoveMoneyCategoryInput, today: Date,
                                 environ: Option<string>, keyring: Keyring)
    requires today.Valid() && p.fromCategoryId == p.toCategoryId
    ensures CorrectedMoveRun(e, w, p, today, environ, keyring) == (SameCategory, w)
  {
  }

  /**
   * A fault-free corrected move between two named categories with enough budgeted in the chosen
   * month completes, debits and credits that month's amounts, and conserves their total.
   */
  lemma {:induction false} CorrectedMoveConserves(e: Env, w: World, p: MoveMoneyCategoryInput, today: Date,
                               environ: Option<string>, keyring: Keyring)
    requires today.Valid() && FaultFree(e, w, environ, keyring)
    requires p.fromCategoryId in w.categories && p.toCategoryId in w.categories
    requires p.fromCategoryId != p.toCategoryId
    requires w.categories[p.fromCategoryId].name.Some? && w.categories[p.toCategoryId].name.Some?
    requires DollarsToMilliunits(p.amount) <= BudgetedIn(w.categories, p.fromCategoryId, MoveMonth(p, today))
    ensures var (o, w') := CorrectedMoveRun(e, w, p, today, environ, keyring);
      var month := MoveMonth(p, today);
      && o.Moved?
      && BudgetedIn(w'.categories, p.fromCategoryId, month) ==
           BudgetedIn(w.categories, p.fromCategoryId, month) - DollarsToMilliunits(p.amount)
      && BudgetedIn(w'.categories, p.toCategoryId, month) ==
           BudgetedIn(w.categories, p.toCategoryId, month) + DollarsToMilliunits(p.amount)
      && BudgetedIn(w'.categories, p.fromCategoryId, month) + BudgetedIn(w'.categories, p.toCategoryId, month) ==
           BudgetedIn(w.categories, p.fromCategoryId, month) + BudgetedIn(w.categories, p.toCategoryId, month)
  {
    var cats := w.categories;
    var b, from, to, month, amount := p.budgetId, p.fromCategoryId, p.toCategoryId, MoveMonth(p, today), DollarsToMilliunits(p.amount);
    var bf, bt := BudgetedIn(cats, from, month), BudgetedIn(cats, to, month);
    var nf, nt := bf - amount, bt + amount;
    assert CorrectedMoveRun(e, w, p, today, environ, keyring) == CorrectedWithToken(e, w, e.token, b, from, to, month, amount);
    CorrectedTransferWithToken(e, w, e.token, b, from, to, month, amount, bf, bt, nf, nt);
    WrittenBudgeted(cats, from, to, month, nf, nt, from, month);
    WrittenBudgeted(cats, from, to, month, nf, nt, to, month);
  }

  /** A fault-free corrected move leaves every other category, and every other month, as it was. */
  lemma {:induction false} CorrectedMoveFrame(e: Env, w: World, p: MoveMoneyCategoryInput, today: Date,
                           environ: Option<string>, keyring: Keyring, id: string, m: string)
    requires today.Valid() && FaultFree(e, w, environ, keyring)
    requires p.fromCategoryId in w.categories && p.toCategoryId in w.categories
    requires p.fromCategoryId != p.toCategoryId
    requires (id != p.fromCategoryId && id != p.toCategoryId) || m != MoveMonth(p, today)
    ensures BudgetedIn(CorrectedMoveRun(e, w, p, today, environ, keyring).1.categories, id, m) ==
            BudgetedIn(w.categories, id, m)
  {
    var cats := w.categories;
    var b, from, to, month, amount := p.budgetId, p.fromCategoryId, p.toCategoryId, MoveMonth(p, today), DollarsToMilliunits(p.amount);
    var bf, bt := BudgetedIn(cats, from, month), BudgetedIn(cats, to, month);
    var nf, nt := bf - amount, bt + amount;
    assert CorrectedMoveRun(e, w, p, today, environ, keyring) == CorrectedWithToken(e, w, e.token, b, from, to, month, amount);
    if amount <= bf {
      CorrectedTransferWithToken(e, w, e.token, b, from, to, month, amount, bf, bt, nf, nt);
      WrittenBudgeted(cats, from, to, month, nf, nt, id, m);
    } else {
      CorrectedRefusalWithToken(e, w, e.token, b, from, to, month, amount);
    }
  }

  /** Setting one category's amount for one month changes no other category or month. */
  lemma {:induction false} SetBudgetedIn(cats: map<string, Category>, id: string, month: string, v: int, id': string, m': string)
    requires id in cats
    ensures BudgetedIn(cats[id := SetBudgeted(cats[id], month, v)], id', m') ==
      if id' == id && m' == month then v else BudgetedIn(cats, id', m')
  {
  }

  /**
   * A corrected move is refused, with no update issued, exactly when the chosen month's
   * amount cannot cover it (fault-free service, distinct named categories).
   */
  lemma {:induction false} CorrectedRefusesShortMonth(e: Env, w: World, p: MoveMoneyCategoryInput, today: Date,
                                   environ: Option<string>, keyring: Keyring)
    requires today.Valid() && FaultFree(e, w, environ, keyring)
    requires p.fromCategoryId in w.categories && p.toCategoryId in w.categories
    requires p.fromCategoryId != p.toCategoryId
    requires w.categories[p.fromCategoryId].name.Some?
    requires BudgetedIn(w.categories, p.fromCategoryId, MoveMonth(p, today)) < DollarsToMilliunits(p.amount)
    ensures var (o, w') := CorrectedMoveRun(e, w, p, today, environ, keyring);
      && o.Insufficient?
      && o.fromBudgeted == BudgetedIn(w.categories, p.fromCategoryId, MoveMonth(p, today))
      && w' == World(w.categories, w.log + [GetMonthCategory(p.budgetId, MoveMonth(p, today), p.fromCategoryId),
                                            GetMonthCategory(p.budgetId, MoveMonth(p, today), p.toCategoryId)])
  {
    var b, from, to, month, amount := p.budgetId, p.fromCategoryId, p.toCategoryId, MoveMonth(p, today), DollarsToMilliunits(p.amount);
    assert CorrectedMoveRun(e, w, p, today, environ, keyring) == CorrectedWithToken(e, w, e.token, b, from, to, month, amount);
    CorrectedRefusalWithToken(e, w, e.token, b, from, to, month, amount);
  }

  /** When the destination's update fails, the corrected tool says the source was already debited. */
  lemma {:induction false} CorrectedReportsPartialMove(e: Env, w: World, p: MoveMoneyCategoryInput, today: Date,
                                    environ: Option<string>, keyring: Keyring)
    requires today.Valid()
    requires ClientToken(None, environ, keyring) == Success(e.token)
    requires e.script.Keys == {|w.log| + 3} && ResponseResult(e.script[|w.log| + 3]).Failure?
    requires p.fromCategoryId in w.categories && p.toCategoryId in w.categories
    requires p.fromCategoryId != p.toCategoryId
    requires DollarsToMilliunits(p.amount) <= BudgetedIn(w.categories, p.fromCategoryId, MoveMonth(p, today))
    ensures var (o, w') := CorrectedMoveRun(e, w, p, today, environ, keyring);
      && o.PartiallyApplied? && o.fault == ResponseResult(e.script[|w.log| + 3]).error
      && o.fromAfter == BudgetedIn(w.categories, p.fromCategoryId, MoveMonth(p, today)) - DollarsToMilliunits(p.amount)
      && BudgetedIn(w'.categories, p.fromCategoryId, MoveMonth(p, today)) == o.fromAfter
      && p.toCategoryId in w'.categories && w'.categories[p.toCategoryId] == w.categories[p.toCategoryId]
  {
    var cats := w.categories;
    var b, from, to, month, amount := p.budgetId, p.fromCategoryId, p.toCategoryId, MoveMonth(p, today), DollarsToMilliunits(p.amount);
    var bf, bt := BudgetedIn(cats, from, month), BudgetedIn(cats, to, month);
    var nf, nt := bf - amount, bt + amount;
    assert CorrectedMoveRun(e, w, p, today, environ, keyring) == CorrectedWithToken(e, w, e.token, b, from, to, month, amount);
    CorrectedFailedSecondWithToken(e, w, e.token, b, from, to, month, amount, bf, bt, nf, nt);
    SetBudgetedIn(cats, from, month, nf, from, month);
  }
}
