/**
 * The validated tool inputs: one datatype per input model, its field defaults as constructor
 * defaults, and its field constraints as a `Valid` predicate. A tool is only ever called with
 * an input that satisfies its constraints.
 */
module Models {
  import opened Wrappers
  import Text
  import Units

  /** Default of every `budget_id` field: the most recently used budget. */
  const DefaultBudgetId: string := "last-used"
  const DefaultTransactionLimit: int := 50
  const MaxTransactionLimit: int := 500
  const MaxPayeeNameLength: int := 200
  const MaxMemoLength: int := 500

  /** The pattern `^\d{4}-\d{2}-\d{2}$`. */
  predicate IsDateString(s: string) {
    && |s| == 10
    && Text.AllDigits(s[..4]) && s[4] == '-'
    && Text.AllDigits(s[5..7]) && s[7] == '-'
    && Text.AllDigits(s[8..])
  }

  /** The pattern `^\d{4}-\d{2}-01$`: a date on the first of a month. */
  predicate IsMonthString(s: string) {
    && |s| == 10
    && Text.AllDigits(s[..4]) && s[4] == '-'
    && Text.AllDigits(s[5..7]) && s[7] == '-'
    && s[8..] == "01"
  }

  /** The patterns at work: four, two and two digits with dashes, and a month always ending in `-01`. */
  lemma {:induction false} DatePatternExamples()
    ensures IsDateString("2024-03-15") && IsMonthString("2024-03-01")
    ensures !IsMonthString("2024-03-15")
    ensures !IsDateString("2024-3-15") && !IsDateString("2024/03/15") && !IsDateString("2024-03-15Z")
  {
    assert "2024-03-15"[..4] == "2024" && "2024-03-15"[5..7] == "03" && "2024-03-15"[8..] == "15";
    assert "2024-03-01"[..4] == "2024" && "2024-03-01"[5..7] == "03" && "2024-03-01"[8..] == "01";
    assert "2024-03-15"[8..] != "01";
    assert "2024/03/15"[4] == '/';
  }

  /** Every month string is also a date string. */
  lemma {:induction false} MonthStringIsDateString(s: string)
    requires IsMonthString(s)
    ensures IsDateString(s)
  {
    assert s[8] == '0' && s[9] == '1' by {
      assert s[8..][0] == s[8] && s[8..][1] == s[9];
    }
  }

  /** Optional string fields constrained by a pattern: `None` passes. */
  predicate OptionalMonth(m: Option<string>) {
    m.Some? ==> IsMonthString(m.value)
  }

  predicate OptionalDate(d: Option<string>) {
    d.Some? ==> IsDateString(d.value)
  }

  predicate OptionalMaxLength(s: Option<string>, n: int) {
    s.Some? ==> |s.value| <= n
  }

  /** `ClearedStatus`: a transaction's reconciliation state. */
  datatype ClearedStatus = Cleared | Uncleared | Reconciled {
    /** The enum member's string value. */
    function Value(): string {
      match this
      case Cleared => "cleared"
      case Uncleared => "uncleared"
      case Reconciled => "reconciled"
    }
  }

  /** `ClearedStatus(s)`: the member whose value is `s`, if any. */
  function ParseClearedStatus(s: string): (r: Option<ClearedStatus>)
    ensures r.Some? <==> s == "cleared" || s == "uncleared" || s == "reconciled"
    ensures r.Some? ==> r.value.Value() == s
  {
    if s == "cleared" then Some(Cleared)
    else if s == "uncleared" then Some(Uncleared)
    else if s == "reconciled" then Some(Reconciled)
    else None
  }

  /** The enum's values are distinct, so a status survives the trip to its string and back. */
  lemma {:induction false} ClearedStatusRoundTrip(c: ClearedStatus)
    ensures ParseClearedStatus(c.Value()) == Some(c)
  {
  }

  /** `BudgetIdInput`, and every input model that adds nothing to it. */
  datatype BudgetIdInput = BudgetIdInput(budgetId: string := DefaultBudgetId)

  /** `MoveMoneyCategoryInput` */
  datatype MoveMoneyCategoryInput = MoveMoneyCategoryInput(
    fromCategoryId: string,
    toCategoryId: string,
    amount: real,
    month: Option<string> := None,
    budgetId: string := DefaultBudgetId)
  {
    predicate Valid() {
      amount > 0.0 && OptionalMonth(month)
    }
  }

  /** `SetCategoryBudgetInput` */
  datatype SetCategoryBudgetInput = SetCategoryBudgetInput(
    categoryId: string,
    amount: real,
    month: Option<string> := None,
    budgetId: string := DefaultBudgetId)
  {
    predicate Valid() {
      amount >= 0.0 && OptionalMonth(month)
    }
  }

  /** `GetTransactionsInput` */
  datatype GetTransactionsInput = GetTransactionsInput(
    sinceDate: Option<string> := None,
    accountId: Option<string> := None,
    categoryId: Option<string> := None,
    limit: int := DefaultTransactionLimit,
    budgetId: string := DefaultBudgetId)
  {
    predicate Valid() {
      OptionalDate(sinceDate) && 1 <= limit <= MaxTransactionLimit
    }
  }

  /** `CreateTransactionInput`; `amount` holds the value after the field validator rounded it. */
  datatype CreateTransactionInput = CreateTransactionInput(
    accountId: string,
    amount: real,
    date: string,
    payeeName: Option<string> := None,
    categoryId: Option<string> := None,
    memo: Option<string> := None,
    cleared: ClearedStatus := Uncleared,
    approved: bool := false,
    budgetId: string := DefaultBudgetId)
  {
    predicate Valid() {
      && IsDateString(date)
      && OptionalMaxLength(payeeName, MaxPayeeNameLength)
      && OptionalMaxLength(memo, MaxMemoLength)
      && (amount * 100.0).Floor as real == amount * 100.0
    }
  }

  /** `UpdateTransactionInput`: every field but the ids is optional. */
  datatype UpdateTransactionInput = UpdateTransactionInput(
    transactionId: string,
    amount: Option<real> := None,
    date: Option<string> := None,
    payeeName: Option<string> := None,
    categoryId: Option<string> := None,
    memo: Option<string> := None,
    cleared: Option<ClearedStatus> := None,
    approved: Option<bool> := None,
    budgetId: string := DefaultBudgetId)
  {
    predicate Valid() {
      && OptionalDate(date)
      && OptionalMaxLength(payeeName, MaxPayeeNameLength)
      && OptionalMaxLength(memo, MaxMemoLength)
    }
  }

  /** `validate_amount`: `round(v, 2)`, the nearest cent with ties to the even cent. */
  function RoundToCents(v: real): (r: real)
    ensures (r * 100.0).Floor as real == r * 100.0
    ensures Units.NearestTiesEven(v * 100.0, (r * 100.0).Floor)
    ensures -0.005 <= r - v <= 0.005
  {
    Units.RoundHalfEven(v * 100.0) as real / 100.0
  }

  /** Rounding an amount that is already given to the cent leaves it unchanged. */
  lemma {:induction false} RoundToCentsIdempotent(v: real)
    ensures RoundToCents(RoundToCents(v)) == RoundToCents(v)
  {
    var c := Units.RoundHalfEven(v * 100.0);
    assert RoundToCents(v) * 100.0 == c as real;
    Units.RoundIntegral(c);
  }

  /** The documented defaults of the input models. */
  lemma {:induction false} Defaults(accountId: string, amount: real, date: string, transactionId: string)
    ensures BudgetIdInput().budgetId == "last-used"
    ensures GetTransactionsInput().limit == 50 && GetTransactionsInput().sinceDate == None
    ensures CreateTransactionInput(accountId, amount, date).cleared == Uncleared
    ensures !CreateTransactionInput(accountId, amount, date).approved
    ensures UpdateTransactionInput(transactionId).amount == None
  {
  }
}
