/**
 * `ynab_get_accounts`: one read, then the accounts that are neither deleted nor closed,
 * grouped by type in the order each type first appears, then one section per type that
 * lists each account's name, balance and id while the balances are added up.
 */
module Accounts {
  import opened Wrappers
  import opened PyJson
  import opened Errors
  import opened Calls
  import opened Credentials
  import opened Service
  import opened Client
  import opened Models

  const OtherType: Json := JStr("other")

  /** `a.get("deleted") or a.get("closed")` is truthy. */
  predicate Closed(a: Json)
    requires a.JObj?
  {
    ("deleted" in a.fields && Truthy(a.fields["deleted"])) || ("closed" in a.fields && Truthy(a.fields["closed"]))
  }

  /** `a.get("type", "other")` */
  function Kind(a: Json): Json
    requires a.JObj?
  {
    if "type" in a.fields then a.fields["type"] else OtherType
  }

  /** A value that can be a dict key. */
  predicate Hashable(j: Json) {
    !j.JArr? && !j.JObj?
  }

  /** A type and the accounts of that type, in the order they were met. */
  datatype Group = Group(kind: Json, members: seq<Json>)

  /** Where `kind` sits among the groups, if it is there. */
  function KindIndex(gs: seq<Group>, kind: Json): (r: Option<nat>)
    ensures r.Some? ==> r.value < |gs| && gs[r.value].kind == kind
    ensures r.None? ==> forall i :: 0 <= i < |gs| ==> gs[i].kind != kind
    decreases |gs|
  {
    if gs == [] then None
    else if gs[0].kind == kind then Some(0)
    else
      match KindIndex(gs[1..], kind)
      case None => None
      case Some(i) => Some(i + 1)
  }

  /** Lines 136-138: open the type's list when it is new, then append the account to it. */
  function AddToGroups(gs: seq<Group>, kind: Json, a: Json): (r: seq<Group>)
    ensures KindIndex(gs, kind).None? ==> r == gs + [Group(kind, [a])]
    ensures KindIndex(gs, kind).Some? ==>
      var i := KindIndex(gs, kind).value; r == gs[i := Group(kind, gs[i].members + [a])]
  {
    match KindIndex(gs, kind)
    case None => gs + [Group(kind, [a])]
    case Some(i) => gs[i := Group(kind, gs[i].members + [a])]
  }

  /** Each type has one group, every group is non-empty, and every member is open and of its group's type. */
  predicate WellGrouped(gs: seq<Group>) {
    && (forall i, j :: 0 <= i < j < |gs| ==> gs[i].kind != gs[j].kind)
    && (forall i :: 0 <= i < |gs| ==> gs[i].members != [])
    && (forall i, m :: 0 <= i < |gs| && m in gs[i].members ==> m.JObj? && !Closed(m) && Kind(m) == gs[i].kind)
  }

  lemma {:induction false} AddKeepsWellGrouped(gs: seq<Group>, a: Json)
    requires WellGrouped(gs) && a.JObj? && !Closed(a)
    ensures WellGrouped(AddToGroups(gs, Kind(a), a))
    ensures |gs| <= |AddToGroups(gs, Kind(a), a)|
    ensures forall k, m :: 0 <= k < |gs| && m in gs[k].members ==> m in AddToGroups(gs, Kind(a), a)[k].members
    ensures exists k :: 0 <= k < |AddToGroups(gs, Kind(a), a)| && a in AddToGroups(gs, Kind(a), a)[k].members
    ensures forall k, m :: 0 <= k < |AddToGroups(gs, Kind(a), a)| && m in AddToGroups(gs, Kind(a), a)[k].members ==>
      m == a || exists k' :: 0 <= k' < |gs| && m in gs[k'].members
  {
    var r := AddToGroups(gs, Kind(a), a);
    match KindIndex(gs, Kind(a))
    case None =>
      assert a in r[|gs|].members;
      forall i, m | 0 <= i < |r| && m in r[i].members
        ensures m.JObj? && !Closed(m) && Kind(m) == r[i].kind
      {
        if i < |gs| {
          assert r[i] == gs[i];
        }
      }
    case Some(k) =>
      forall i, m | 0 <= i < |r| && m in r[i].members
        ensures m.JObj? && !Closed(m) && Kind(m) == r[i].kind
      {
        if i != k {
          assert r[i] == gs[i];
        } else {
          assert m in gs[k].members || m == a;
        }
      }
      assert a in r[k].members;
  }

  /** Lines 131-138: the `by_type` dict in insertion order, or the first exception. */
  function Grouped(accts: seq<Json>): (r: Result<seq<Group>, Exception>)
    ensures r.Success? ==> WellGrouped(r.value)
    ensures r.Success? ==> forall i :: 0 <= i < |accts| ==> accts[i].JObj?
    ensures r.Success? ==> forall k, m :: 0 <= k < |r.value| && m in r.value[k].members ==> m in accts
    ensures r.Success? ==> forall i :: 0 <= i < |accts| && !Closed(accts[i]) ==>
      exists k :: 0 <= k < |r.value| && accts[i] in r.value[k].members
    decreases |accts|
  {
    if accts == [] then Success([])
    else
      var init := accts[..|accts| - 1];
      var a := accts[|accts| - 1];
      assert forall i :: 0 <= i < |init| ==> init[i] == accts[i];
      assert forall m :: m in init ==> m in accts;
      match Grouped(init)
      case Failure(x) => Failure(x)
      case Success(gs) =>
        match Get(a, "deleted", JNull)
        case Failure(x) => Failure(x)
        case Success(deleted) =>
          // Once `a.get("deleted")` succeeded, `a.get("closed")` cannot raise.
          if Closed(a) then Success(gs)
          else
            var kind := Kind(a);
            if !Hashable(kind) then Failure(TypeError("unhashable type: '" + TypeName(kind) + "'"))
            else
              AddKeepsWellGrouped(gs, a);
              Success(AddToGroups(gs, kind, a))
  }

  lemma {:induction false} GroupedFailurePersists(accts: seq<Json>, n: nat)
    requires n <= |accts| && Grouped(accts[..n]).Failure?
    ensures Grouped(accts) == Grouped(accts[..n])
    decreases |accts| - n
  {
    if n < |accts| {
      assert accts[..n + 1][..n] == accts[..n];
      GroupedFailurePersists(accts, n + 1);
    } else {
      assert accts[..n] == accts;
    }
  }

  /** The first loop, over the accounts the service returned. */
  method GroupAccounts(accts: seq<Json>) returns (r: Result<seq<Group>, Exception>)
    ensures r == Grouped(accts)
  {
    var byType: seq<Group> := [];
    var i := 0;
    while i < |accts|
      invariant 0 <= i <= |accts|
      invariant Grouped(accts[..i]) == Success(byType)
    {
      var a := accts[i];
      assert accts[..i + 1][..i] == accts[..i];
      var deleted := Get(a, "deleted", JNull);
      if deleted.Failure? {
        GroupedFailurePersists(accts, i + 1);
        return Failure(deleted.error);
      }
      if !Truthy(deleted.value) && !Truthy(Get(a, "closed", JNull).value) {
        assert !Closed(a);
        var kind := Kind(a);
        if !Hashable(kind) {
          GroupedFailurePersists(accts, i + 1);
          return Failure(TypeError("unhashable type: '" + TypeName(kind) + "'"));
        }
        byType := AddToGroups(byType, kind, a);
      }
      i := i + 1;
    }
    assert accts[..i] == accts;
    r := Success(byType);
  }

  /** One listed account: its name, its balance in milliunits and its id. */
  datatype Entry = Entry(name: Json, balance: int, id: Json)

  /** A section: the type's name and its accounts. */
  datatype Section = Section(kind: string, entries: seq<Entry>)

  /** Lines 146-149 for one account: the balance is added before the name and the id are read. */
  function EntryOf(a: Json): (r: Result<Entry, Exception>)
    ensures r.Success? <==>
      && a.JObj? && AsInt(if "balance" in a.fields then a.fields["balance"] else JInt(0), "+").Success?
      && "name" in a.fields && "id" in a.fields
    ensures r.Success? ==>
      r.value == Entry(a.fields["name"], AsInt(if "balance" in a.fields then a.fields["balance"] else JInt(0), "+").value,
                       a.fields["id"])
  {
    match Get(a, "balance", JInt(0))
    case Failure(x) => Failure(x)
    case Success(b) =>
      match AsInt(b, "+")
      case Failure(x) => Failure(x)
      case Success(balance) =>
        match Subscript(a, "name")
        case Failure(x) => Failure(x)
        case Success(name) =>
          match Subscript(a, "id")
          case Failure(x) => Failure(x)
          case Success(id) => Success(Entry(name, balance, id))
  }

  /** The entries of one group's accounts in order, or the first exception. */
  function Entries(ms: seq<Json>): (r: Result<seq<Entry>, Exception>)
    ensures r.Success? ==> |r.value| == |ms| && forall i :: 0 <= i < |ms| ==> EntryOf(ms[i]) == Success(r.value[i])
    decreases |ms|
  {
    if ms == [] then Success([])
    else
      var init := ms[..|ms| - 1];
      assert forall i :: 0 <= i < |init| ==> init[i] == ms[i];
      match Entries(init)
      case Failure(x) => Failure(x)
      case Success(front) =>
        match EntryOf(ms[|ms| - 1])
        case Failure(x) => Failure(x)
        case Success(entry) => Success(front + [entry])
  }

  /** Line 144: `atype.replace(...)` needs a string, then the group's accounts are listed. */
  function SectionOf(g: Group): (r: Result<Section, Exception>)
    ensures r.Success? ==> g.kind.JStr? && r.value.kind == g.kind.s && Entries(g.members) == Success(r.value.entries)
    ensures !g.kind.JStr? ==> r.Failure? && r.error.AttributeError?
  {
    if !g.kind.JStr? then Failure(AttributeError("'" + TypeName(g.kind) + "' object has no attribute 'replace'"))
    else
      match Entries(g.members)
      case Failure(x) => Failure(x)
      case Success(entries) => Success(Section(g.kind.s, entries))
  }

  /** Lines 143-150: the sections in group order, or the first exception. */
  function Sections(gs: seq<Group>): (r: Result<seq<Section>, Exception>)
    decreases |gs|
  {
    if gs == [] then Success([])
    else
      var init := gs[..|gs| - 1];
      match Sections(init)
      case Failure(x) => Failure(x)
      case Success(front) =>
        match SectionOf(gs[|gs| - 1])
        case Failure(x) => Failure(x)
        case Success(section) => Success(front + [section])
  }

  function EntriesTotal(es: seq<Entry>): int
    decreases |es|
  {
    if es == [] then 0 else EntriesTotal(es[..|es| - 1]) + es[|es| - 1].balance
  }

  function SectionsTotal(ss: seq<Section>): int
    decreases |ss|
  {
    if ss == [] then 0 else SectionsTotal(ss[..|ss| - 1]) + EntriesTotal(ss[|ss| - 1].entries)
  }

  lemma {:induction false} EntriesFailurePersists(ms: seq<Json>, n: nat)
    requires n <= |ms| && Entries(ms[..n]).Failure?
    ensures Entries(ms) == Entries(ms[..n])
    decreases |ms| - n
  {
    if n < |ms| {
      var next := n + 1;
      assert ms[..next][..n] == ms[..n];
      EntriesFailurePersists(ms, next);
    } else {
      assert ms[..n] == ms;
    }
  }

  lemma {:induction false} SectionsFailurePersists(gs: seq<Group>, n: nat)
    requires n <= |gs| && Sections(gs[..n]).Failure?
    ensures Sections(gs) == Sections(gs[..n])
    decreases |gs| - n
  {
    if n < |gs| {
      var next := n + 1;
      assert gs[..next][..n] == gs[..n];
      SectionsFailurePersists(gs, next);
    } else {
      assert gs[..n] == gs;
    }
  }

  /** One more group: its section is appended, or its exception ends the listing. */
  lemma {:induction false} SectionsStep(gs: seq<Group>, i: nat, next: nat, sections: seq<Section>)
    requires i < |gs| && next == i + 1 && Sections(gs[..i]) == Success(sections)
    ensures SectionOf(gs[i]).Failure? ==> Sections(gs[..next]) == Failure(SectionOf(gs[i]).error)
    ensures SectionOf(gs[i]).Success? ==> Sections(gs[..next]) == Success(sections + [SectionOf(gs[i]).value])
  {
    assert gs[..next][..i] == gs[..i];
  }

  lemma {:induction false} SectionsTotalStep(sections: seq<Section>, section: Section)
    ensures SectionsTotal(sections + [section]) == SectionsTotal(sections) + EntriesTotal(section.entries)
  {
    assert (sections + [section])[..|sections|] == sections;
  }

  /** One more account: its entry is appended, or its exception ends the listing. */
  lemma {:induction false} EntriesStep(ms: seq<Json>, j: nat, next: nat, entries: seq<Entry>)
    requires j < |ms| && next == j + 1 && Entries(ms[..j]) == Success(entries)
    ensures Entries(ms[..next]) ==
      match EntryOf(ms[j])
      case Failure(x) => Failure(x)
      case Success(entry) => Success(entries + [entry])
  {
    assert ms[..next][..j] == ms[..j];
  }

  /** The inner loop of lines 145-149 for one group. */
  method ListGroup(ms: seq<Json>) returns (r: Result<(seq<Entry>, int), Exception>)
    ensures Entries(ms).Failure? ==> r == Failure(Entries(ms).error)
    ensures Entries(ms).Success? ==> r == Success((Entries(ms).value, EntriesTotal(Entries(ms).value)))
  {
    var entries: seq<Entry> := [];
    var subtotal := 0;
    var j := 0;
    while j < |ms|
      invariant 0 <= j <= |ms|
      invariant Entries(ms[..j]) == Success(entries)
      invariant subtotal == EntriesTotal(entries)
    {
      var entry := EntryOf(ms[j]);
      var next := j + 1;
      EntriesStep(ms, j, next, entries);
      if entry.Failure? {
        EntriesFailurePersists(ms, next);
        return Failure(entry.error);
      }
      entries := entries + [entry.value];
      subtotal := subtotal + entry.value.balance;
      j := next;
    }
    assert ms[..j] == ms;
    r := Success((entries, subtotal));
  }

  /** Lines 143-150 for one group: its heading, its lines and its subtotal. */
  method ListSection(g: Group) returns (r: Result<(Section, int), Exception>)
    ensures SectionOf(g).Failure? ==> r == Failure(SectionOf(g).error)
    ensures SectionOf(g).Success? ==> r == Success((SectionOf(g).value, EntriesTotal(SectionOf(g).value.entries)))
  {
    if !g.kind.JStr? {
      return Failure(AttributeError("'" + TypeName(g.kind) + "' object has no attribute 'replace'"));
    }
    var listed := ListGroup(g.members);
    if listed.Failure? {
      return Failure(listed.error);
    }
    r := Success((Section(g.kind.s, listed.value.0), listed.value.1));
  }

  /** Lines 141-152: the sections and `total_balance`, group by group. */
  method ListSections(gs: seq<Group>) returns (r: Result<(seq<Section>, int), Exception>)
    ensures Sections(gs).Failure? ==> r == Failure(Sections(gs).error)
    ensures Sections(gs).Success? ==> r == Success((Sections(gs).value, SectionsTotal(Sections(gs).value)))
  {
    var sections: seq<Section> := [];
    var total := 0;
    var i := 0;
    while i < |gs|
      invariant 0 <= i <= |gs|
      invariant Sections(gs[..i]) == Success(sections)
      invariant total == SectionsTotal(sections)
    {
      var next := i + 1;
      SectionsStep(gs, i, next, sections);
      var listed := ListSection(gs[i]);
      if listed.Failure? {
        SectionsFailurePersists(gs, next);
        return Failure(listed.error);
      }
      var section := listed.value.0;
      SectionsTotalStep(sections, section);
      sections := sections + [section];
      total := total + listed.value.1;
      i := next;
    }
    assert gs[..i] == gs;
    r := Success((sections, total));
  }

  datatype AccountsOutcome =
    | AccountList(sections: seq<Section>, total: int)
    | AccountsFailed(fault: Fault)

  /** Lines 131-153 on what the read returned. */
  function AccountListing(r: Result<Json, Fault>): (o: AccountsOutcome)
    ensures r.Failure? ==> o == AccountsFailed(r.error)
  {
    match r
    case Failure(f) => AccountsFailed(f)
    case Success(j) =>
      match Iterate(j)
      case Failure(x) => AccountsFailed(Raised(x))
      case Success(accts) =>
        match Grouped(accts)
        case Failure(x) => AccountsFailed(Raised(x))
        case Success(gs) =>
          match Sections(gs)
          case Failure(x) => AccountsFailed(Raised(x))
          case Success(ss) => AccountList(ss, SectionsTotal(ss))
  }

  function AccountsRun(e: Env, w: World, p: BudgetIdInput, environ: Option<string>, keyring: Keyring)
    : (AccountsOutcome, World)
  {
    match ClientToken(None, environ, keyring)
    case Failure(x) => (AccountsFailed(Raised(x)), w)
    case Success(bearer) =>
      var (r, w') := Exchange(e, w, bearer, GetAccounts(p.budgetId));
      (AccountListing(r), w')
  }

  method ListAccounts(remote: Remote, p: BudgetIdInput, environ: Option<string>, keyring: Keyring)
    returns (o: AccountsOutcome)
    modifies remote
    ensures (o, remote.State()) == AccountsRun(remote.env, old(remote.State()), p, environ, keyring)
  {
    var created := YnabClient.Create(None, environ, keyring);
    if created.Failure? {
      return AccountsFailed(created.error);
    }
    var client := created.value;
    var r := client.GetAccounts(remote, p.budgetId);
    client.Close();
    if r.Failure? {
      return AccountsFailed(r.error);
    }
    var accts := Iterate(r.value);
    if accts.Failure? {
      return AccountsFailed(Raised(accts.error));
    }
    var gs := GroupAccounts(accts.value);
    if gs.Failure? {
      return AccountsFailed(Raised(gs.error));
    }
    var listed := ListSections(gs.value);
    if listed.Failure? {
      return AccountsFailed(Raised(listed.error));
    }
    o := AccountList(listed.value.0, listed.value.1);
  }

  /** The balance line 146 reads, as an integer (0 where Python would raise). */
  function BalanceOf(a: Json): int {
    if a.JObj? then
      match AsInt(if "balance" in a.fields then a.fields["balance"] else JInt(0), "+")
      case Success(v) => v
      case Failure(_) => 0
    else 0
  }

  function BalancesTotal(ms: seq<Json>): int
    decreases |ms|
  {
    if ms == [] then 0 else BalancesTotal(ms[..|ms| - 1]) + BalanceOf(ms[|ms| - 1])
  }

  function GroupsTotal(gs: seq<Group>): int
    decreases |gs|
  {
    if gs == [] then 0 else GroupsTotal(gs[..|gs| - 1]) + BalancesTotal(gs[|gs| - 1].members)
  }

  /** The sum of the balances of the accounts that are neither deleted nor closed, in the service's order. */
  function OpenTotal(accts: seq<Json>): int
    decreases |accts|
  {
    if accts == [] then 0
    else
      var a := accts[|accts| - 1];
      OpenTotal(accts[..|accts| - 1]) + (if a.JObj? && !Closed(a) then BalanceOf(a) else 0)
  }

  lemma {:induction false} GroupsTotalUpdate(gs: seq<Group>, i: nat, g: Group)
    requires i < |gs|
    ensures GroupsTotal(gs[i := g]) == GroupsTotal(gs) - BalancesTotal(gs[i].members) + BalancesTotal(g.members)
    decreases |gs|
  {
    var n := |gs|;
    if i == n - 1 {
      assert gs[i := g][..n - 1] == gs[..n - 1];
    } else {
      assert gs[i := g][..n - 1] == gs[..n - 1][i := g];
      GroupsTotalUpdate(gs[..n - 1], i, g);
    }
  }

  /** Adding an account to its group adds its balance to the groups' total. */
  lemma {:induction false} AddToGroupsTotal(gs: seq<Group>, kind: Json, a: Json)
    ensures GroupsTotal(AddToGroups(gs, kind, a)) == GroupsTotal(gs) + BalanceOf(a)
  {
    match KindIndex(gs, kind)
    case None =>
      var r := gs + [Group(kind, [a])];
      assert AddToGroups(gs, kind, a) == r;
      assert r[..|gs|] == gs;
      assert [a][..0] == [];
      assert BalancesTotal([a]) == BalanceOf(a);
      assert GroupsTotal(r) == GroupsTotal(gs) + BalancesTotal([a]);
    case Some(i) =>
      var ms := gs[i].members;
      assert (ms + [a])[..|ms|] == ms;
      GroupsTotalUpdate(gs, i, Group(kind, ms + [a]));
  }

  /** Grouping loses no open account's balance and adds none: the groups total the open accounts. */
  lemma {:induction false} GroupedTotal(accts: seq<Json>)
    requires Grouped(accts).Success?
    ensures GroupsTotal(Grouped(accts).value) == OpenTotal(accts)
    decreases |accts|
  {
    if accts != [] {
      var init := accts[..|accts| - 1];
      var a := accts[|accts| - 1];
      GroupedTotal(init);
      var gs := Grouped(init).value;
      assert a.JObj?;
      if Closed(a) {
        assert Grouped(accts).value == gs;
      } else {
        assert Grouped(accts).value == AddToGroups(gs, Kind(a), a);
        AddToGroupsTotal(gs, Kind(a), a);
      }
    }
  }

  lemma {:induction false} EntriesTotalIsBalances(ms: seq<Json>)
    requires Entries(ms).Success?
    ensures EntriesTotal(Entries(ms).value) == BalancesTotal(ms)
    decreases |ms|
  {
    if ms != [] {
      var init := ms[..|ms| - 1];
      EntriesTotalIsBalances(init);
      var es := Entries(ms).value;
      assert es[..|es| - 1] == Entries(init).value;
    }
  }

  lemma {:induction false} SectionsTotalIsGroups(gs: seq<Group>)
    requires Sections(gs).Success?
    ensures SectionsTotal(Sections(gs).value) == GroupsTotal(gs)
    decreases |gs|
  {
    if gs != [] {
      var init := gs[..|gs| - 1];
      SectionsTotalIsGroups(init);
      var ss := Sections(gs).value;
      assert ss[..|ss| - 1] == Sections(init).value;
      EntriesTotalIsBalances(gs[|gs| - 1].members);
    }
  }

  /** Listed sections correspond one to one, in order, to the groups they were made from. */
  lemma {:induction false} SectionsAreGroupwise(gs: seq<Group>)
    requires Sections(gs).Success?
    ensures |Sections(gs).value| == |gs|
    ensures forall i :: 0 <= i < |gs| ==> SectionOf(gs[i]) == Success(Sections(gs).value[i])
    decreases |gs|
  {
    if gs != [] {
      var init := gs[..|gs| - 1];
      SectionsAreGroupwise(init);
      var front := Sections(init).value;
      assert Sections(gs).value == front + [SectionOf(gs[|gs| - 1]).value];
      assert forall i :: 0 <= i < |init| ==> init[i] == gs[i] && Sections(gs).value[i] == front[i];
    }
  }

  /** Each type has one section. */
  lemma {:induction false} SectionKindsDistinct(gs: seq<Group>, ss: seq<Section>)
    requires WellGrouped(gs) && Sections(gs) == Success(ss)
    ensures forall i, j :: 0 <= i < j < |ss| ==> ss[i].kind != ss[j].kind
  {
    SectionsAreGroupwise(gs);
    forall i, j | 0 <= i < j < |ss|
      ensures ss[i].kind != ss[j].kind
    {
      assert SectionOf(gs[i]) == Success(ss[i]) && SectionOf(gs[j]) == Success(ss[j]);
    }
  }

  /** Every entry of a section is an open account of that section's type. */
  lemma {:induction false} SectionEntriesAreOpenAccounts(gs: seq<Group>, ss: seq<Section>, accts: seq<Json>)
    requires WellGrouped(gs) && Sections(gs) == Success(ss)
    requires forall k, m :: 0 <= k < |gs| && m in gs[k].members ==> m in accts
    ensures forall i, k :: 0 <= i < |ss| && 0 <= k < |ss[i].entries| ==> EntryIsOpenAccount(ss[i], k, accts)
  {
    SectionsAreGroupwise(gs);
    forall i | 0 <= i < |ss|
      ensures forall k :: 0 <= k < |ss[i].entries| ==> EntryIsOpenAccount(ss[i], k, accts)
    {
      GroupMembersAreOpen(gs, accts, i);
      GroupSectionIsOpenAccounts(gs[i], ss[i], accts);
    }
  }

  /** The members of a group are accounts of the listing, open and of the group's type. */
  lemma {:induction false} GroupMembersAreOpen(gs: seq<Group>, accts: seq<Json>, i: nat)
    requires WellGrouped(gs) && i < |gs|
    requires forall k, m :: 0 <= k < |gs| && m in gs[k].members ==> m in accts
    ensures forall m :: m in gs[i].members ==> m in accts && m.JObj? && !Closed(m) && Kind(m) == gs[i].kind
  {
  }

  /** Every entry of a group's section is an open account of the group's type. */
  lemma {:induction false} GroupSectionIsOpenAccounts(g: Group, s: Section, accts: seq<Json>)
    requires SectionOf(g) == Success(s)
    requires forall m :: m in g.members ==> m in accts && m.JObj? && !Closed(m) && Kind(m) == g.kind
    ensures forall k :: 0 <= k < |s.entries| ==> EntryIsOpenAccount(s, k, accts)
  {
    forall k | 0 <= k < |s.entries|
      ensures EntryIsOpenAccount(s, k, accts)
    {
      GroupEntryIsOpenAccount(g, s, accts, k);
    }
  }

  /** The `k`-th entry of a group's section is one of its members, an open account of the group's type. */
  lemma {:induction false} GroupEntryIsOpenAccount(g: Group, s: Section, accts: seq<Json>, k: nat)
    requires SectionOf(g) == Success(s) && k < |s.entries|
    requires forall m :: m in g.members ==> m in accts && m.JObj? && !Closed(m) && Kind(m) == g.kind
    ensures EntryIsOpenAccount(s, k, accts)
  {
    EntryOfMember(g, s, k);
    assert g.members[k] in g.members;
  }

  /** The `k`-th entry of a section is listed for an open account of the section's type. */
  predicate EntryIsOpenAccount(s: Section, k: nat, accts: seq<Json>)
    requires k < |s.entries|
  {
    exists a :: a in accts && a.JObj? && !Closed(a) && Kind(a) == JStr(s.kind) && EntryOf(a) == Success(s.entries[k])
  }

  lemma {:induction false} EntryOfMember(g: Group, s: Section, k: nat)
    requires SectionOf(g) == Success(s) && k < |s.entries|
    ensures k < |g.members| && EntryOf(g.members[k]) == Success(s.entries[k]) && g.kind == JStr(s.kind)
  {
  }

  /** When the accounts are listed, the total printed is the groups' total, that of the open accounts. */
  lemma {:induction false} ListingTotal(accts: seq<Json>)
    requires Grouped(accts).Success? && Sections(Grouped(accts).value).Success?
    ensures SectionsTotal(Sections(Grouped(accts).value).value) == OpenTotal(accts)
  {
    GroupedTotal(accts);
    SectionsTotalIsGroups(Grouped(accts).value);
  }

  /**
   * The tool only reads. When it lists the accounts, the total balance it prints is the sum
   * of the balances of the accounts that are neither deleted nor closed.
   */
  lemma {:induction false} AccountTotalIsOpenBalance(e: Env, w: World, p: BudgetIdInput, environ: Option<string>, keyring: Keyring)
    requires FaultFree(e, w, environ, keyring)
    ensures var (o, w') := AccountsRun(e, w, p, environ, keyring);
      && w'.log == w.log + [GetAccounts(p.budgetId)] && w'.categories == w.categories
      && (o.AccountList? ==> o.total == OpenTotal(e.accounts))
      && (o.AccountList? ==> o.sections == Sections(Grouped(e.accounts).value).value)
  {
    assert Serves(e, |w.log|, e.token);
    ExchangeDeliversAnswer(e, w, e.token, GetAccounts(p.budgetId), JArr(e.accounts));
    if Grouped(e.accounts).Success? && Sections(Grouped(e.accounts).value).Success? {
      ListingTotal(e.accounts);
    }
  }

  /** Every account that is neither deleted nor closed is in one of the groups the sections come from. */
  lemma {:induction false} OpenAccountsAreGrouped(accts: seq<Json>, i: nat)
    requires Grouped(accts).Success? && i < |accts| && !Closed(accts[i])
    ensures exists k :: (0 <= k < |Grouped(accts).value| && accts[i] in Grouped(accts).value[k].members
                         && Grouped(accts).value[k].kind == Kind(accts[i]))
  {
    var gs := Grouped(accts).value;
    var k :| 0 <= k < |gs| && accts[i] in gs[k].members;
  }
}
