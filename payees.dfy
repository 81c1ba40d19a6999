/**
 * `ynab_get_payees`: one read, then the payees that are neither deleted nor transfer payees,
 * sorted by their lower-cased name (a stable sort), of which the first hundred are listed
 * and the rest only counted.
 */
module Payees {
  import opened Wrappers
  import opened PyJson
  import opened Errors
  import opened Calls
  import opened Credentials
  import opened Service
  import opened Client
  import opened Models
  import opened Text

  const TransferPrefix: string := "Transfer"
  const PageSize: nat := 100

  /** `p["name"]` when it is a string. */
  predicate HasTextName(p: Json) {
    p.JObj? && "name" in p.fields && p.fields["name"].JStr?
  }

  /** `p.get("deleted")` is truthy. */
  predicate Deleted(p: Json)
    requires p.JObj?
  {
    "deleted" in p.fields && Truthy(p.fields["deleted"])
  }

  /**
   * The comprehension's condition `not p.get("deleted") and not p["name"].startswith("Transfer")`.
   * The name is only looked at for a payee that is not deleted.
   */
  function Kept(p: Json): (r: Result<bool, Exception>)
    ensures !p.JObj? ==> r.Failure? && r.error.AttributeError?
    ensures p.JObj? ==> (r.Success? <==> Deleted(p) || HasTextName(p))
    ensures p.JObj? && !Deleted(p) && "name" !in p.fields ==> r == Failure(KeyError("name"))
    ensures r == Success(true) <==>
      p.JObj? && !Deleted(p) && HasTextName(p) && !StartsWith(p.fields["name"].s, TransferPrefix)
  {
    match Get(p, "deleted", JNull)
    case Failure(x) => Failure(x)
    case Success(deleted) =>
      if Truthy(deleted) then Success(false)
      else
        match Subscript(p, "name")
        case Failure(x) => Failure(x)
        case Success(name) =>
          if name.JStr? then Success(!StartsWith(name.s, TransferPrefix))
          else Failure(AttributeError("'" + TypeName(name) + "' object has no attribute 'startswith'"))
  }

  /** The list comprehension of line 470: the kept payees in order, or the first exception. */
  function Filter(ps: seq<Json>): (r: Result<seq<Json>, Exception>)
    ensures r.Success? <==> forall i :: 0 <= i < |ps| ==> Kept(ps[i]).Success?
    ensures r.Success? ==> |r.value| <= |ps|
    ensures r.Success? ==> forall q :: q in r.value ==> q in ps && Kept(q) == Success(true)
    ensures r.Success? ==> forall i :: 0 <= i < |ps| && Kept(ps[i]) == Success(true) ==> ps[i] in r.value
    decreases |ps|
  {
    if ps == [] then Success([])
    else
      var init := ps[..|ps| - 1];
      assert forall i :: 0 <= i < |init| ==> init[i] == ps[i];
      assert forall q :: q in init ==> q in ps;
      match Filter(init)
      case Failure(x) => Failure(x)
      case Success(front) =>
        match Kept(ps[|ps| - 1])
        case Failure(x) => Failure(x)
        case Success(keep) => if keep then Success(front + [ps[|ps| - 1]]) else Success(front)
  }

  /** One more payee: it is appended when kept, and its exception ends the filter. */
  lemma {:induction false} FilterSnoc(init: seq<Json>, last: Json)
    ensures Filter(init + [last]).Success? <==> Filter(init).Success? && Kept(last).Success?
    ensures Filter(init + [last]).Success? ==>
      Filter(init + [last]).value == Filter(init).value + (if Kept(last).value then [last] else [])
  {
    var ps := init + [last];
    assert ps[..|ps| - 1] == init && ps[|ps| - 1] == last;
  }

  /** The filter distributes over concatenation, so it keeps the payees in their order. */
  lemma {:induction false} FilterAppend(a: seq<Json>, b: seq<Json>)
    ensures Filter(a + b).Success? ==>
      Filter(a).Success? && Filter(b).Success? && Filter(a + b).value == Filter(a).value + Filter(b).value
    decreases |b|
  {
    if b == [] {
      assert a + b == a;
    } else {
      var b', last := b[..|b| - 1], b[|b| - 1];
      assert b == b' + [last];
      assert a + b == (a + b') + [last];
      FilterAppend(a, b');
      FilterSnoc(a + b', last);
      FilterSnoc(b', last);
    }
  }

  /** A filter that succeeds keeps every copy of a kept payee and no copy of any other. */
  lemma {:induction false} FilterCounts(ps: seq<Json>)
    requires Filter(ps).Success?
    ensures forall q :: multiset(Filter(ps).value)[q] == if Kept(q) == Success(true) then multiset(ps)[q] else 0
    decreases |ps|
  {
    if ps != [] {
      var init, last := ps[..|ps| - 1], ps[|ps| - 1];
      assert ps == init + [last];
      FilterSnoc(init, last);
      FilterCounts(init);
    }
  }

  /** What the filter keeps of the first `n` payees begins what it keeps of all of them. */
  lemma {:induction false} FilterPrefix(ps: seq<Json>, n: nat)
    requires n <= |ps| && Filter(ps).Success?
    ensures Filter(ps[..n]).Success? && Filter(ps[..n]).value <= Filter(ps).value
  {
    assert ps == ps[..n] + ps[n..];
    FilterAppend(ps[..n], ps[n..]);
  }

  /** A payee the tool shows: a dict, not deleted, with a string name not starting with "Transfer". */
  predicate Visible(p: Json) {
    p.JObj? && !Deleted(p) && HasTextName(p) && !StartsWith(p.fields["name"].s, TransferPrefix)
  }

  /** How many of the payees are visible, counted from the front. */
  function VisibleCount(ps: seq<Json>): nat
    decreases |ps|
  {
    if ps == [] then 0 else (if Visible(ps[0]) then 1 else 0) + VisibleCount(ps[1..])
  }

  /** A filter that succeeds keeps exactly as many payees as are visible. */
  lemma {:induction false} FilterCountsVisible(ps: seq<Json>)
    requires Filter(ps).Success?
    ensures |Filter(ps).value| == VisibleCount(ps)
    decreases |ps|
  {
    if ps != [] {
      var head, rest := [ps[0]], ps[1..];
      assert ps == head + rest;
      FilterAppend(head, rest);
      assert head[..0] == [];
      FilterCountsVisible(rest);
    }
  }

  /** The sort key `p["name"].lower()`; every kept payee has a string name. */
  function NameKey(p: Json): string {
    if HasTextName(p) then Lower(p.fields["name"].s) else ""
  }

  predicate SortedByName(s: seq<Json>) {
    forall i, j :: 0 <= i < j < |s| ==> LessEq(NameKey(s[i]), NameKey(s[j]))
  }

  /** Put `x` in front of the first element whose key is not smaller than its own. */
  function Insert(x: Json, s: seq<Json>): (r: seq<Json>)
    ensures multiset(r) == multiset(s) + multiset{x}
    ensures |r| == |s| + 1
    decreases |s|
  {
    if s == [] || LessEq(NameKey(x), NameKey(s[0])) then [x] + s
    else
      assert s == [s[0]] + s[1..];
      [s[0]] + Insert(x, s[1..])
  }

  lemma {:induction false} InsertSorted(x: Json, s: seq<Json>)
    requires SortedByName(s)
    ensures SortedByName(Insert(x, s))
    decreases |s|
  {
    if s == [] || LessEq(NameKey(x), NameKey(s[0])) {
      var r := [x] + s;
      forall i, j | 0 <= i < j < |r|
        ensures LessEq(NameKey(r[i]), NameKey(r[j]))
      {
        if i == 0 && j > 1 {
          LessEqTransitive(NameKey(x), NameKey(s[0]), NameKey(s[j - 1]));
        }
      }
    } else {
      InsertSorted(x, s[1..]);
      InsertSortedPastHead(x, s);
    }
  }

  /** The step of `InsertSorted` where `x` goes past the first element. */
  lemma {:induction false} InsertSortedPastHead(x: Json, s: seq<Json>)
    requires SortedByName(s) && s != [] && !LessEq(NameKey(x), NameKey(s[0]))
    requires SortedByName(Insert(x, s[1..]))
    ensures SortedByName(Insert(x, s))
  {
    var t := Insert(x, s[1..]);
    NothingBeforeHead(x, s);
    assert Insert(x, s) == [s[0]] + t;
    ConsSorted(s[0], t);
  }

  /** Everything `x` is inserted among is `x` or a later element of `s`, so none sorts before `s[0]`. */
  lemma {:induction false} NothingBeforeHead(x: Json, s: seq<Json>)
    requires SortedByName(s) && s != [] && !LessEq(NameKey(x), NameKey(s[0]))
    ensures forall j :: 0 <= j < |Insert(x, s[1..])| ==> LessEq(NameKey(s[0]), NameKey(Insert(x, s[1..])[j]))
  {
    LessEqTotal(NameKey(x), NameKey(s[0]));
    var t := Insert(x, s[1..]);
    forall j | 0 <= j < |t|
      ensures LessEq(NameKey(s[0]), NameKey(t[j]))
    {
      assert t[j] in multiset(t);
      if t[j] != x {
        assert t[j] in multiset(s[1..]);
        var k :| 0 <= k < |s[1..]| && s[1..][k] == t[j];
        assert s[k + 1] == t[j];
      }
    }
  }

  /** A sorted sequence stays sorted behind an element that sorts before all of it. */
  lemma {:induction false} ConsSorted(h: Json, t: seq<Json>)
    requires SortedByName(t)
    requires forall j :: 0 <= j < |t| ==> LessEq(NameKey(h), NameKey(t[j]))
    ensures SortedByName([h] + t)
  {
    var r := [h] + t;
    forall i, j | 0 <= i < j < |r|
      ensures LessEq(NameKey(r[i]), NameKey(r[j]))
    {
      assert r[j] == t[j - 1];
      if i > 0 {
        assert r[i] == t[i - 1];
      }
    }
  }

  /** `sorted(payees, key=...)`, as an insertion sort. */
  function SortByName(s: seq<Json>): (r: seq<Json>)
    ensures multiset(r) == multiset(s)
    ensures |r| == |s|
    ensures SortedByName(r)
    decreases |s|
  {
    if s == [] then []
    else
      assert s == [s[0]] + s[1..];
      InsertSorted(s[0], SortByName(s[1..]));
      Insert(s[0], SortByName(s[1..]))
  }

  /** The elements of `s` whose key is `k`, in order. */
  function WithKey(s: seq<Json>, k: string): seq<Json>
    decreases |s|
  {
    if s == [] then [] else (if NameKey(s[0]) == k then [s[0]] else []) + WithKey(s[1..], k)
  }

  lemma {:induction false} WithKeyCons(x: Json, s: seq<Json>, k: string)
    ensures WithKey([x] + s, k) == (if NameKey(x) == k then [x] else []) + WithKey(s, k)
  {
    assert ([x] + s)[1..] == s;
  }

  lemma {:induction false} InsertWithKey(x: Json, s: seq<Json>, k: string)
    ensures WithKey(Insert(x, s), k) == (if NameKey(x) == k then [x] else []) + WithKey(s, k)
    decreases |s|
  {
    if s == [] || LessEq(NameKey(x), NameKey(s[0])) {
      WithKeyCons(x, s, k);
    } else {
      InsertWithKey(x, s[1..], k);
      InsertPastHead(x, s, k);
    }
  }

  /** The step of `InsertWithKey` where `x` goes past the first element. */
  lemma {:induction false} InsertPastHead(x: Json, s: seq<Json>, k: string)
    requires s != [] && !LessEq(NameKey(x), NameKey(s[0]))
    requires WithKey(Insert(x, s[1..]), k) == (if NameKey(x) == k then [x] else []) + WithKey(s[1..], k)
    ensures WithKey(Insert(x, s), k) == (if NameKey(x) == k then [x] else []) + WithKey(s, k)
  {
    var rest := WithKey(s[1..], k);
    var t := Insert(x, s[1..]);
    assert Insert(x, s) == [s[0]] + t;
    WithKeyCons(s[0], t, k);
    WithKeyCons(s[0], s[1..], k);
    assert [s[0]] + s[1..] == s;
    if NameKey(x) == k {
      // x went past s[0], so their keys differ and s[0] contributes nothing.
      LessEqReflexive(NameKey(x));
      assert WithKey(Insert(x, s), k) == [x] + rest;
      assert WithKey(s, k) == rest;
    } else {
      assert WithKey(t, k) == rest;
      assert WithKey(Insert(x, s), k) == WithKey(s, k);
    }
  }

  /** The sort is stable: payees whose keys are equal keep their relative order. */
  lemma {:induction false} SortIsStable(s: seq<Json>, k: string)
    ensures WithKey(SortByName(s), k) == WithKey(s, k)
    decreases |s|
  {
    if s != [] {
      SortIsStable(s[1..], k);
      InsertWithKey(s[0], SortByName(s[1..]), k);
    }
  }

  function FirstPage(s: seq<Json>): (r: seq<Json>)
    ensures |r| == if |s| <= PageSize then |s| else PageSize
    ensures r == s[..|r|]
  {
    if |s| <= PageSize then s else s[..PageSize]
  }

  /** `p['name']` and `p['id']` for each listed payee, or the first `KeyError`. */
  function Lines(ps: seq<Json>): (r: Result<seq<(Json, Json)>, Exception>)
    ensures r.Success? <==> forall i :: 0 <= i < |ps| ==> ps[i].JObj? && "name" in ps[i].fields && "id" in ps[i].fields
    ensures r.Success? ==>
      && |r.value| == |ps|
      && forall i :: 0 <= i < |ps| ==> r.value[i] == (ps[i].fields["name"], ps[i].fields["id"])
    decreases |ps|
  {
    if ps == [] then Success([])
    else
      var init := ps[..|ps| - 1];
      assert forall i :: 0 <= i < |init| ==> init[i] == ps[i];
      match Lines(init)
      case Failure(x) => Failure(x)
      case Success(front) =>
        var p := ps[|ps| - 1];
        match Subscript(p, "name")
        case Failure(x) => Failure(x)
        case Success(name) =>
          match Subscript(p, "id")
          case Failure(x) => Failure(x)
          case Success(id) => Success(front + [(name, id)])
  }

  /** Lines 475-476: the loop over the first page, one line per payee. */
  method RenderPage(ps: seq<Json>) returns (r: Result<seq<(Json, Json)>, Exception>)
    ensures r == Lines(ps)
  {
    var lines: seq<(Json, Json)> := [];
    var i := 0;
    while i < |ps|
      invariant 0 <= i <= |ps|
      invariant Lines(ps[..i]) == Success(lines)
    {
      assert ps[..i + 1][..i] == ps[..i];
      var name := Subscript(ps[i], "name");
      if name.Failure? {
        LinesFailurePersists(ps, i + 1);
        return Failure(name.error);
      }
      var id := Subscript(ps[i], "id");
      if id.Failure? {
        LinesFailurePersists(ps, i + 1);
        return Failure(id.error);
      }
      lines := lines + [(name.value, id.value)];
      i := i + 1;
    }
    assert ps[..i] == ps;
    r := Success(lines);
  }

  lemma {:induction false} LinesFailurePersists(ps: seq<Json>, n: nat)
    requires n <= |ps| && Lines(ps[..n]).Failure?
    ensures Lines(ps) == Lines(ps[..n])
    decreases |ps| - n
  {
    if n < |ps| {
      assert ps[..n + 1][..n] == ps[..n];
      LinesFailurePersists(ps, n + 1);
    } else {
      assert ps[..n] == ps;
    }
  }

  datatype PayeesOutcome =
    | PayeePage(count: nat, shown: seq<(Json, Json)>, more: nat)
    | PayeesFailed(fault: Fault)

  /** Lines 470-479 on what the read returned. */
  function PayeeListing(r: Result<Json, Fault>): (o: PayeesOutcome)
    ensures r.Failure? ==> o == PayeesFailed(r.error)
    ensures o.PayeePage? ==>
      && o.more == (if o.count > PageSize then o.count - PageSize else 0)
      && |o.shown| == o.count - o.more <= PageSize
  {
    match r
    case Failure(f) => PayeesFailed(f)
    case Success(j) =>
      match Iterate(j)
      case Failure(x) => PayeesFailed(Raised(x))
      case Success(ps) =>
        match Filter(ps)
        case Failure(x) => PayeesFailed(Raised(x))
        case Success(kept) => KeptListing(kept)
  }

  /** Lines 471-479: the kept payees sorted, all of them counted, the first page rendered. */
  function KeptListing(kept: seq<Json>): (o: PayeesOutcome)
    ensures o.PayeePage? ==>
      && o.count == |kept|
      && o.more == (if o.count > PageSize then o.count - PageSize else 0)
      && |o.shown| == o.count - o.more <= PageSize
  {
    var sorted := SortByName(kept);
    match Lines(FirstPage(sorted))
    case Failure(x) => PayeesFailed(Raised(x))
    case Success(lines) => PayeePage(|sorted|, lines, if |sorted| > PageSize then |sorted| - PageSize else 0)
  }

  function PayeesRun(e: Env, w: World, p: BudgetIdInput, environ: Option<string>, keyring: Keyring)
    : (PayeesOutcome, World)
  {
    match ClientToken(None, environ, keyring)
    case Failure(x) => (PayeesFailed(Raised(x)), w)
    case Success(bearer) =>
      var (r, w') := Exchange(e, w, bearer, GetPayees(p.budgetId));
      (PayeeListing(r), w')
  }

  method ListPayees(remote: Remote, p: BudgetIdInput, environ: Option<string>, keyring: Keyring)
    returns (o: PayeesOutcome)
    modifies remote
    ensures (o, remote.State()) == PayeesRun(remote.env, old(remote.State()), p, environ, keyring)
  {
    var created := YnabClient.Create(None, environ, keyring);
    if created.Failure? {
      return PayeesFailed(created.error);
    }
    var client := created.value;
    var r := client.GetPayees(remote, p.budgetId);
    client.Close();
    if r.Failure? {
      return PayeesFailed(r.error);
    }
    o := ListReceived(r.value);
  }

  /** Lines 470-479 once the payees arrived: filter, sort, and render the first page. */
  method ListReceived(j: Json) returns (o: PayeesOutcome)
    ensures o == PayeeListing(Success(j))
  {
    var ps := Iterate(j);
    if ps.Failure? {
      return PayeesFailed(Raised(ps.error));
    }
    var kept := Filter(ps.value);
    if kept.Failure? {
      return PayeesFailed(Raised(kept.error));
    }
    o := ListKept(kept.value);
  }

  /** Lines 471-479: sort the kept payees and render the first page. */
  method ListKept(kept: seq<Json>) returns (o: PayeesOutcome)
    ensures o == KeptListing(kept)
  {
    var sorted := SortByName(kept);
    var lines := RenderPage(FirstPage(sorted));
    if lines.Failure? {
      return PayeesFailed(Raised(lines.error));
    }
    o := PayeePage(|sorted|, lines.value, if |sorted| > PageSize then |sorted| - PageSize else 0);
  }

  /** Every payee the service holds is a dict with a string name and an id. */
  predicate WellFormedPayees(ps: seq<Json>) {
    forall i :: 0 <= i < |ps| ==> HasTextName(ps[i]) && "id" in ps[i].fields
  }

  /** Well-formed payees pass the filter without an exception, and every visible one is kept. */
  lemma {:induction false} FilterWellFormed(ps: seq<Json>)
    requires WellFormedPayees(ps)
    ensures Filter(ps).Success?
    ensures forall i :: 0 <= i < |ps| ==>
      (!Deleted(ps[i]) && !StartsWith(ps[i].fields["name"].s, TransferPrefix) ==> ps[i] in Filter(ps).value)
  {
    forall i | 0 <= i < |ps|
      ensures Kept(ps[i]).Success?
      ensures !Deleted(ps[i]) && !StartsWith(ps[i].fields["name"].s, TransferPrefix) ==> Kept(ps[i]) == Success(true)
    {
      assert HasTextName(ps[i]);
    }
  }

  /** Every payee on the first page of the sorted kept payees was kept and has an id. */
  lemma {:induction false} PageIsKept(ps: seq<Json>, kept: seq<Json>)
    requires WellFormedPayees(ps) && Filter(ps) == Success(kept)
    ensures forall i :: 0 <= i < |FirstPage(SortByName(kept))| ==>
      Kept(FirstPage(SortByName(kept))[i]) == Success(true) && "id" in FirstPage(SortByName(kept))[i].fields
  {
    var sorted := SortByName(kept);
    var page := FirstPage(sorted);
    forall i | 0 <= i < |page|
      ensures Kept(page[i]) == Success(true) && "id" in page[i].fields
    {
      assert page[i] == sorted[i];
      assert sorted[i] in multiset(kept);
      assert page[i] in kept && page[i] in ps;
      var k :| 0 <= k < |ps| && ps[k] == page[i];
    }
  }

  /** The first page of well-formed kept payees renders, in order of name, with no transfer payee. */
  lemma {:induction false} PageOfVisible(ps: seq<Json>, kept: seq<Json>)
    requires WellFormedPayees(ps) && Filter(ps) == Success(kept)
    ensures Lines(FirstPage(SortByName(kept))).Success?
    ensures var lines := Lines(FirstPage(SortByName(kept))).value;
      && (forall i :: 0 <= i < |lines| ==> lines[i].0.JStr? && !StartsWith(lines[i].0.s, TransferPrefix))
      && (forall i, j :: 0 <= i < j < |lines| ==> LessEq(Lower(lines[i].0.s), Lower(lines[j].0.s)))
  {
    var sorted := SortByName(kept);
    var page := FirstPage(sorted);
    PageIsKept(ps, kept);
    assert SortedByName(page) by {
      assert forall i :: 0 <= i < |page| ==> page[i] == sorted[i];
    }
    LinesOfSortedPage(page);
  }

  /** A sorted page of kept payees with ids renders its names in order, none of them a transfer payee. */
  lemma {:induction false} LinesOfSortedPage(page: seq<Json>)
    requires SortedByName(page)
    requires forall i :: 0 <= i < |page| ==> Kept(page[i]) == Success(true) && "id" in page[i].fields
    ensures Lines(page).Success?
    ensures var lines := Lines(page).value;
      && (forall i :: 0 <= i < |lines| ==> lines[i].0.JStr? && !StartsWith(lines[i].0.s, TransferPrefix))
      && (forall i, j :: 0 <= i < j < |lines| ==> LessEq(Lower(lines[i].0.s), Lower(lines[j].0.s)))
  {
    var lines := Lines(page).value;
    forall i, j | 0 <= i < j < |lines|
      ensures LessEq(Lower(lines[i].0.s), Lower(lines[j].0.s))
    {
      assert NameKey(page[i]) == Lower(lines[i].0.s);
    }
  }

  /** What the tool makes of a list of payees that passes the filter and whose first page renders. */
  lemma {:induction false} ListingOfKept(ps: seq<Json>, kept: seq<Json>)
    requires Filter(ps) == Success(kept) && Lines(FirstPage(SortByName(kept))).Success?
    ensures PayeeListing(Success(JArr(ps))) ==
      PayeePage(|kept|, Lines(FirstPage(SortByName(kept))).value, if |kept| > PageSize then |kept| - PageSize else 0)
  {
    assert Iterate(JArr(ps)) == Success(ps);
    assert PayeeListing(Success(JArr(ps))) == KeptListing(kept);
  }

  /**
   * Against a service that accepts the call and holds well-formed payees, the tool only
   * reads, counts every payee that is neither deleted nor a transfer payee, and lists the
   * first hundred of them in case-insensitive order of name, none of them a transfer payee.
   */
  lemma {:induction false} PayeePageShowsVisiblePayees(e: Env, w: World, p: BudgetIdInput, environ: Option<string>, keyring: Keyring)
    requires FaultFree(e, w, environ, keyring) && WellFormedPayees(e.payees)
    ensures var (o, w') := PayeesRun(e, w, p, environ, keyring);
      && w'.log == w.log + [GetPayees(p.budgetId)] && w'.categories == w.categories
      && o.PayeePage?
      && o.count == |Filter(e.payees).value| == VisibleCount(e.payees)
      && (forall i :: 0 <= i < |e.payees| ==>
            (!Deleted(e.payees[i]) && !StartsWith(e.payees[i].fields["name"].s, TransferPrefix) ==>
               e.payees[i] in Filter(e.payees).value))
      && (forall i :: 0 <= i < |o.shown| ==> o.shown[i].0.JStr? && !StartsWith(o.shown[i].0.s, TransferPrefix))
      && (forall i, j :: 0 <= i < j < |o.shown| ==> LessEq(Lower(o.shown[i].0.s), Lower(o.shown[j].0.s)))
  {
    assert Serves(e, |w.log|, e.token);
    ExchangeDeliversAnswer(e, w, e.token, GetPayees(p.budgetId), JArr(e.payees));
    FilterWellFormed(e.payees);
    var kept := Filter(e.payees).value;
    PageOfVisible(e.payees, kept);
    ListingOfKept(e.payees, kept);
    FilterCountsVisible(e.payees);
  }
}
