/** The chart of accounts: a forest of groups and postable accounts, and everything that changes it. */
module ChartOfAccounts {
  import opened Wrappers
  import opened AccountCode
  import RollUp
  import Reports = FinancialReports

  datatype Account = Account(
    code: string,
    kind: Reports.Type,
    normal: Reports.Normal,
    postable: bool,
    active: bool,
    parent: Option<nat>,
    party: Option<nat>,
    color: Option<nat>)

  type Chart = map<nat, Account>

  /** Everything outside the chart its checks look at: accounts some other record points at, accounts mapped to an
      automatic posting, accounts with a balance, and active parties. */
  datatype World = World(used: set<nat>, mapped: set<nat>, withBalance: set<nat>, parties: set<nat>)

  datatype Error =
    | DuplicateCode | ParentNotFound | ParentNotGroup | ColorOnChild | PartyNotFound | AccountNotFound | AccountInUse
    | ParentInactive | AccountMapped | HasActiveChildren | BalanceNotZero | MoveIntoSelfOrDescendant | TypeMismatch
    | ParentInvalid | CodeExhausted | IdTaken

  /** One of the three accounts an employee gets: its group, the account already there, the id for a new one. */
  datatype Spec = Spec(kind: Reports.Type, group: nat, have: Option<nat>, id: nat)

  /** An outer None leaves a field alone, an inner one clears it. */
  datatype Command =
    | Create(id: nat, code: string, kind: Reports.Type, postable: bool, parent: Option<nat>, party: Option<nat>, color: Option<Option<nat>>)
    | Update(id: nat, linkTo: Option<Option<nat>>, color: Option<Option<nat>>)
    | Move(id: nat, newParent: Option<nat>)
    | MakeGroup(id: nat)
    | Delete(id: nat)
    | SetActive(id: nat, active: bool, acknowledge: bool)
    | Provision(rows: seq<Coded>, specs: seq<Spec>, employee: nat)

  function ParentOf(chart: Chart, a: nat): Option<nat>
  {
    if a in chart then chart[a].parent else None
  }

  predicate HasCode(chart: Chart, code: string)
  {
    exists a :: a in chart && chart[a].code == code
  }

  predicate HasChildren(chart: Chart, id: nat)
  {
    exists a :: a in chart && chart[a].parent == Some(id)
  }

  predicate HasActiveChild(chart: Chart, id: nat)
  {
    exists a :: a in chart && chart[a].parent == Some(id) && chart[a].active
  }

  function CreateAccount(w: World, chart: Chart, id: nat, code: string, kind: Reports.Type, postable: bool,
                         parent: Option<nat>, party: Option<nat>, color: Option<Option<nat>>): Result<Chart, Error>
  {
    if HasCode(chart, code) then Failure(DuplicateCode)
    else if parent.Some? && parent.value !in chart then Failure(ParentNotFound)
    else if parent.Some? && chart[parent.value].postable then Failure(ParentNotGroup)
    else if parent.Some? && color.Some? then Failure(ColorOnChild)
    else if party.Some? && party.value !in w.parties then Failure(PartyNotFound)
    else if id in chart then Failure(IdTaken)
    else Success(chart[id := Account(code, kind, Reports.NormalBalanceFor(kind), postable, true, parent, party, if color.Some? then color.value else None)])
  }

  function UpdateAccount(w: World, chart: Chart, id: nat, party: Option<Option<nat>>, color: Option<Option<nat>>): Result<Chart, Error>
  {
    if id !in chart then Failure(AccountNotFound)
    else if color.Some? && color.value.Some? && chart[id].parent.Some? then Failure(ColorOnChild)
    else if party.Some? && party.value.Some? && party.value.value !in w.parties then Failure(PartyNotFound)
    else
      Success(chart[id := chart[id].(party := if party.Some? then party.value else chart[id].party,
                                     color := if color.Some? then color.value else chart[id].color)])
  }

  /** Whether the climb from a cursor meets the account before it ends or comes back on itself. */
  function Meets(chart: Chart, id: nat, cursor: Option<nat>, seen: set<nat>): bool
    decreases chart.Keys - seen, if cursor.Some? then 1 else 0
  {
    if cursor.None? || cursor.value in seen then false
    else if cursor.value == id then true
    else
      SeenGrows(chart, cursor.value, seen);
      Meets(chart, id, ParentOf(chart, cursor.value), seen + {cursor.value})
  }

  lemma {:induction false} SeenGrows(chart: Chart, a: nat, seen: set<nat>)
    requires a !in seen
    ensures if a in chart then chart.Keys - (seen + {a}) < chart.Keys - seen else chart.Keys - (seen + {a}) == chart.Keys - seen
  {
    if a in chart {
      assert a in chart.Keys - seen && a !in chart.Keys - (seen + {a});
    }
  }

  function MoveAccount(chart: Chart, id: nat, newParent: Option<nat>): Result<Chart, Error>
  {
    if id !in chart then Failure(AccountNotFound)
    else if chart[id].parent == newParent then Success(chart)
    else if newParent.None? then Success(chart[id := chart[id].(parent := None)])
    else
      var p := newParent.value;
      if p == id then Failure(MoveIntoSelfOrDescendant)
      else if p !in chart then Failure(ParentNotFound)
      else if chart[p].postable then Failure(ParentNotGroup)
      else if chart[p].kind != chart[id].kind then Failure(TypeMismatch)
      else if Meets(chart, id, chart[p].parent, {p}) then Failure(MoveIntoSelfOrDescendant)
      else Success(chart[id := chart[id].(parent := newParent, color := None)])
  }

  function MakeGroupOf(w: World, chart: Chart, id: nat): Result<Chart, Error>
  {
    if id !in chart then Failure(AccountNotFound)
    else if !chart[id].postable then Success(chart)
    else if id in w.used || chart[id].party.Some? then Failure(AccountInUse)
    else Success(chart[id := chart[id].(postable := false)])
  }

  function DeleteAccount(w: World, chart: Chart, id: nat): Result<Chart, Error>
  {
    if id !in chart then Failure(AccountNotFound)
    else if id in w.used || chart[id].party.Some? || HasChildren(chart, id) then Failure(AccountInUse)
    else Success(chart - {id})
  }

  function SetActiveOf(w: World, chart: Chart, id: nat, active: bool, acknowledge: bool): Result<Chart, Error>
  {
    if id !in chart then Failure(AccountNotFound)
    else if chart[id].active == active then Success(chart)
    else if active && chart[id].parent.Some? && chart[id].parent.value in chart && !chart[chart[id].parent.value].active then Failure(ParentInactive)
    else if !active && id in w.mapped then Failure(AccountMapped)
    else if !active && HasActiveChild(chart, id) then Failure(HasActiveChildren)
    else if !active && !acknowledge && id in w.withBalance then Failure(BalanceNotZero)
    else Success(chart[id := chart[id].(active := active)])
  }

  // ---- an employee's accounts ----

  datatype Provisioning = Provisioning(chart: Chart, rows: seq<Coded>)

  predicate GroupFits(chart: Chart, s: Spec)
  {
    s.group in chart && !chart[s.group].postable && chart[s.group].kind == s.kind && chart[s.group].active
  }

  function NewAccount(code: string, s: Spec, employee: nat): Account
  {
    Account(code, s.kind, Reports.NormalBalanceFor(s.kind), true, true, Some(s.group), Some(employee), None)
  }

  /** The next missing account, numbered against everything created before it. */
  function ProvisionOne(employee: nat): (Provisioning, Spec) -> Result<Provisioning, Error>
  {
    (p: Provisioning, s: Spec) =>
      if s.have.Some? then Success(p)
      else
        match SuggestNext(p.rows, s.group)
        case None => Failure(CodeExhausted)
        case Some(code) =>
          if s.id in p.chart then Failure(IdTaken)
          else Success(Provisioning(p.chart[s.id := NewAccount(code, s, employee)], p.rows + [Coded(s.id, code, Some(s.group))]))
  }

  function ProvisionAccounts(chart: Chart, rows: seq<Coded>, specs: seq<Spec>, employee: nat): Result<Chart, Error>
  {
    if exists i :: 0 <= i < |specs| && !GroupFits(chart, specs[i]) then Failure(ParentInvalid)
    else
      var p :- Fold(Provisioning(chart, rows), specs, ProvisionOne(employee));
      Success(p.chart)
  }

  function Answer(w: World, chart: Chart, c: Command): Result<Chart, Error>
  {
    match c
    case Create(id, code, kind, postable, parent, party, color) => CreateAccount(w, chart, id, code, kind, postable, parent, party, color)
    case Update(id, party, color) => UpdateAccount(w, chart, id, party, color)
    case Move(id, newParent) => MoveAccount(chart, id, newParent)
    case MakeGroup(id) => MakeGroupOf(w, chart, id)
    case Delete(id) => DeleteAccount(w, chart, id)
    case SetActive(id, active, acknowledge) => SetActiveOf(w, chart, id, active, acknowledge)
    case Provision(rows, specs, employee) => ProvisionAccounts(chart, rows, specs, employee)
  }

  /** A refused command changes nothing. */
  function After(w: World, chart: Chart, c: Command): Chart
  {
    var r := Answer(w, chart, c);
    if r.Success? then r.value else chart
  }

  // ---- the invariant ----

  function Parents(chart: Chart): map<nat, nat>
  {
    map a | a in chart && chart[a].parent.Some? :: chart[a].parent.value
  }

  predicate ParentFits(chart: Chart, a: nat)
    requires a in chart
  {
    chart[a].parent.Some? ==> chart[a].parent.value in chart && !chart[chart[a].parent.value].postable
  }

  /** Every parent is a group that exists: postable accounts have no children. */
  predicate ParentsAreGroups(chart: Chart)
  {
    forall a {:trigger ParentFits(chart, a)} :: a in chart ==> ParentFits(chart, a)
  }

  predicate ColorsOnTop(chart: Chart)
  {
    forall a :: a in chart && chart[a].color.Some? ==> chart[a].parent.None?
  }

  predicate SameCode(chart: Chart, a: nat, b: nat)
    requires a in chart && b in chart
  {
    chart[a].code == chart[b].code
  }

  predicate CodesUnique(chart: Chart)
  {
    forall a, b {:trigger SameCode(chart, a, b)} :: a in chart && b in chart && SameCode(chart, a, b) ==> a == b
  }

  predicate NormalByType(chart: Chart)
  {
    forall a :: a in chart ==> chart[a].normal == Reports.NormalBalanceFor(chart[a].kind)
  }

  predicate WellFormed(chart: Chart)
  {
    ParentsAreGroups(chart) && ColorsOnTop(chart) && CodesUnique(chart) && NormalByType(chart)
  }

  /** The depths show there is no cycle. */
  predicate Graded(chart: Chart, depth: map<nat, nat>)
  {
    RollUp.Acyclic(Parents(chart), depth)
  }

  ghost predicate Holds(chart: Chart)
  {
    WellFormed(chart) && exists depth :: Graded(chart, depth)
  }

  predicate Fits(chart: Chart, id: nat, a: Account)
  {
    && id !in chart && !HasCode(chart, a.code)
    && (a.parent.Some? ==> a.parent.value in chart && !chart[a.parent.value].postable && a.color.None?)
    && a.normal == Reports.NormalBalanceFor(a.kind)
  }

  lemma {:induction false} AddWellFormed(chart: Chart, id: nat, a: Account)
    requires WellFormed(chart) && Fits(chart, id, a)
    ensures WellFormed(chart[id := a])
  {
    var t := chart[id := a];
    forall x | x in t ensures ParentFits(t, x) {
      assert x != id ==> ParentFits(chart, x);
    }
    forall x, y | x in t && y in t && SameCode(t, x, y) ensures x == y {
      assert x != id && y != id ==> SameCode(chart, x, y);
    }
  }

  lemma {:induction false} AddGrades(chart: Chart, depth: map<nat, nat>, id: nat, a: Account)
    requires ParentsAreGroups(chart) && Graded(chart, depth) && depth.Keys == chart.Keys
    requires id !in chart && (a.parent.Some? ==> a.parent.value in chart)
    ensures Graded(chart[id := a], depth[id := if a.parent.Some? then RollUp.DepthOf(depth, a.parent.value) + 1 else 0])
  {
    var t := chart[id := a];
    forall x | x in Parents(t) && x != id ensures x in Parents(chart) && Parents(chart)[x] == Parents(t)[x] {}
  }

  /** A new account under a group, or on top. */
  lemma {:induction false} AddKeeps(chart: Chart, id: nat, a: Account)
    requires Holds(chart) && Fits(chart, id, a)
    ensures Holds(chart[id := a])
  {
    AddWellFormed(chart, id, a);
    var depth :| Graded(chart, depth);
    FullDepthGrades(chart, depth);
    AddGrades(chart, FullDepth(chart, depth), id, a);
  }

  /** Depths for every account. */
  function FullDepth(chart: Chart, depth: map<nat, nat>): map<nat, nat>
  {
    map a | a in chart :: RollUp.DepthOf(depth, a)
  }

  lemma {:induction false} FullDepthGrades(chart: Chart, depth: map<nat, nat>)
    requires ParentsAreGroups(chart) && Graded(chart, depth)
    ensures Graded(chart, FullDepth(chart, depth))
  {
    forall a | a in Parents(chart) ensures Parents(chart)[a] in chart {
      assert ParentFits(chart, a);
    }
  }

  /** Changing nothing about an account's code, type, normal balance and parent, nor making a parent postable. */
  lemma {:induction false} EditKeeps(chart: Chart, id: nat, a: Account)
    requires Holds(chart) && id in chart
    requires var b := chart[id]; a.code == b.code && a.kind == b.kind && a.normal == b.normal && a.parent == b.parent
    requires a.postable ==> chart[id].postable
    requires a.color.Some? && a.parent.Some? ==> chart[id].color.Some?
    ensures Holds(chart[id := a])
  {
    var t := chart[id := a];
    EditWellFormed(chart, id, a);
    var depth :| Graded(chart, depth);
    assert Parents(t) == Parents(chart);
    assert Graded(t, depth);
  }

  lemma {:induction false} EditWellFormed(chart: Chart, id: nat, a: Account)
    requires WellFormed(chart) && id in chart
    requires var b := chart[id]; a.code == b.code && a.kind == b.kind && a.normal == b.normal && (a.postable ==> b.postable)
    requires a.parent == chart[id].parent || (a.parent.Some? ==> a.parent.value in chart && !chart[a.parent.value].postable)
    requires a.color.Some? && a.parent.Some? ==> chart[id].color.Some? && chart[id].parent.Some?
    ensures WellFormed(chart[id := a])
  {
    var t := chart[id := a];
    forall x | x in t ensures ParentFits(t, x) {
      assert ParentFits(chart, x);
    }
    forall x, y | x in t && y in t && SameCode(t, x, y) ensures x == y {
      assert SameCode(chart, x, y);
    }
  }

  lemma {:induction false} DeleteKeeps(chart: Chart, id: nat)
    requires Holds(chart) && !HasChildren(chart, id)
    ensures Holds(chart - {id})
  {
    var t := chart - {id};
    forall x | x in t ensures ParentFits(t, x) {
      assert ParentFits(chart, x);
    }
    forall x, y | x in t && y in t && SameCode(t, x, y) ensures x == y {
      assert SameCode(chart, x, y);
    }
    var depth :| Graded(chart, depth);
    FewerGrade(chart, t, depth);
  }

  lemma {:induction false} FewerGrade(chart: Chart, t: Chart, depth: map<nat, nat>)
    requires Graded(chart, depth) && forall x :: x in Parents(t) ==> x in Parents(chart) && Parents(chart)[x] == Parents(t)[x]
    ensures Graded(t, depth)
  {
  }

  // ---- moving ----

  /** The climb meets the account exactly when it starts at it or somewhere below it. */
  lemma {:induction false} MeetsIsUnder(chart: Chart, depth: map<nat, nat>, id: nat, cursor: Option<nat>, seen: set<nat>)
    requires Graded(chart, depth)
    requires cursor.Some? ==> forall x :: x in seen ==> RollUp.DepthOf(depth, cursor.value) < RollUp.DepthOf(depth, x)
    ensures Meets(chart, id, cursor, seen) <==> cursor.Some? && RollUp.Under(Parents(chart), depth, cursor.value, id)
    decreases chart.Keys - seen, if cursor.Some? then 1 else 0
  {
    if cursor.Some? && cursor.value != id {
      assert cursor.value !in seen;
      SeenGrows(chart, cursor.value, seen);
      var up := ParentOf(chart, cursor.value);
      assert up.Some? ==> cursor.value in Parents(chart) && Parents(chart)[cursor.value] == up.value;
      MeetsIsUnder(chart, depth, id, up, seen + {cursor.value});
    }
  }

  lemma {:induction false} ClimbFinds(chart: Chart, depth: map<nat, nat>, id: nat, p: nat)
    requires Graded(chart, depth) && p in chart && p != id
    ensures Meets(chart, id, chart[p].parent, {p}) <==> RollUp.Under(Parents(chart), depth, p, id)
  {
    var up := chart[p].parent;
    if up.Some? {
      assert p in Parents(chart) && Parents(chart)[p] == up.value;
    }
    MeetsIsUnder(chart, depth, id, up, {p});
  }

  /** Everything under the moved account goes down with it. */
  function Sunk(chart: Chart, depth: map<nat, nat>, id: nat, p: nat): map<nat, nat>
  {
    map a | a in depth :: depth[a] + if RollUp.Under(Parents(chart), depth, a, id) then RollUp.DepthOf(depth, p) + 1 else 0
  }

  lemma {:induction false} MoveGrades(chart: Chart, depth: map<nat, nat>, id: nat, p: nat)
    requires Graded(chart, depth) && depth.Keys == chart.Keys && id in chart && p in chart
    requires !RollUp.Under(Parents(chart), depth, p, id)
    ensures Graded(chart[id := chart[id].(parent := Some(p), color := None)], Sunk(chart, depth, id, p))
  {
    var t, sunk := chart[id := chart[id].(parent := Some(p), color := None)], Sunk(chart, depth, id, p);
    forall x | x in Parents(t) ensures x in sunk && Parents(t)[x] in sunk && sunk[Parents(t)[x]] < sunk[x] {
      if x == id {
        assert RollUp.Under(Parents(chart), depth, id, id);
      } else {
        assert x in Parents(chart) && Parents(t)[x] == Parents(chart)[x];
        assert RollUp.Under(Parents(chart), depth, x, id) == RollUp.Under(Parents(chart), depth, Parents(chart)[x], id);
      }
    }
  }

  lemma {:induction false} MoveKeeps(chart: Chart, id: nat, newParent: Option<nat>)
    requires Holds(chart) && MoveAccount(chart, id, newParent).Success?
    ensures Holds(MoveAccount(chart, id, newParent).value)
  {
    var t := MoveAccount(chart, id, newParent).value;
    if t != chart {
      EditWellFormed(chart, id, t[id]);
      var some :| Graded(chart, some);
      var depth := FullDepth(chart, some);
      FullDepthGrades(chart, some);
      if newParent.Some? {
        ClimbFinds(chart, depth, id, newParent.value);
        MoveGrades(chart, depth, id, newParent.value);
      } else {
        FewerGrade(chart, t, depth);
      }
    }
  }

  /** A move is refused for making a cycle exactly when the new parent is the account or somewhere below it. */
  lemma {:induction false} MoveRefusesCyclesOnly(chart: Chart, depth: map<nat, nat>, id: nat, p: nat)
    requires Holds(chart) && Graded(chart, depth) && id in chart && p in chart && chart[id].parent != Some(p)
    requires !chart[p].postable && chart[p].kind == chart[id].kind
    ensures MoveAccount(chart, id, Some(p)) == Failure(MoveIntoSelfOrDescendant) <==> RollUp.Under(Parents(chart), depth, p, id)
  {
    if p != id {
      ClimbFinds(chart, depth, id, p);
    }
  }

  // ---- provisioning ----

  /** The rows list the whole chart, in whatever order. */
  predicate Lists(rows: seq<Coded>, chart: Chart)
  {
    && (forall i :: 0 <= i < |rows| ==> rows[i].id in chart && chart[rows[i].id].code == rows[i].code && chart[rows[i].id].parent == rows[i].parent)
    && (forall a :: a in chart ==> exists i :: 0 <= i < |rows| && rows[i].id == a)
  }

  lemma {:induction false} CodeIsFree(chart: Chart, rows: seq<Coded>, code: string)
    requires Lists(rows, chart) && !Taken(rows, code)
    ensures !HasCode(chart, code)
  {
    forall a | a in chart ensures chart[a].code != code {
      var i :| 0 <= i < |rows| && rows[i].id == a;
      assert rows[i].code != code;
    }
  }

  lemma {:induction false} ListsOneMore(chart: Chart, rows: seq<Coded>, id: nat, a: Account)
    requires Lists(rows, chart) && id !in chart
    ensures Lists(rows + [Coded(id, a.code, a.parent)], chart[id := a])
  {
    var t, more := chart[id := a], rows + [Coded(id, a.code, a.parent)];
    forall x | x in t ensures exists i :: 0 <= i < |more| && more[i].id == x {
      if x == id {
        assert more[|rows|].id == x;
      } else {
        var i :| 0 <= i < |rows| && rows[i].id == x;
        assert more[i] == rows[i];
      }
    }
  }

  ghost predicate Provisioned(p: Provisioning, specs: seq<Spec>)
  {
    && Holds(p.chart) && Lists(p.rows, p.chart)
    && forall i :: 0 <= i < |specs| ==> GroupFits(p.chart, specs[i])
  }

  lemma {:induction false} ProvisionOneKeeps(p: Provisioning, s: Spec, specs: seq<Spec>, employee: nat)
    requires Provisioned(p, specs) && GroupFits(p.chart, s) && ProvisionOne(employee)(p, s).Success?
    ensures Provisioned(ProvisionOne(employee)(p, s).value, specs)
    ensures forall a :: a in p.chart ==> a in ProvisionOne(employee)(p, s).value.chart && ProvisionOne(employee)(p, s).value.chart[a] == p.chart[a]
  {
    if s.have.None? {
      var code := SuggestNext(p.rows, s.group).value;
      SuggestionHolds(p.rows, s.group);
      CodeIsFree(p.chart, p.rows, code);
      AddKeeps(p.chart, s.id, NewAccount(code, s, employee));
      ListsOneMore(p.chart, p.rows, s.id, NewAccount(code, s, employee));
    }
  }

  lemma {:induction false} ProvisionKeeps(p: Provisioning, specs: seq<Spec>, n: nat, employee: nat)
    requires Provisioned(p, specs) && n <= |specs| && Fold(p, specs[..n], ProvisionOne(employee)).Success?
    ensures Provisioned(Fold(p, specs[..n], ProvisionOne(employee)).value, specs)
  {
    if n > 0 {
      assert specs[..n][..n - 1] == specs[..n - 1];
      ProvisionKeeps(p, specs, n - 1, employee);
      ProvisionOneKeeps(Fold(p, specs[..n - 1], ProvisionOne(employee)).value, specs[n - 1], specs, employee);
    }
  }

  // ---- runs ----

  /** A provisioning reads the chart as it stands. */
  predicate Faithful(chart: Chart, c: Command)
  {
    c.Provision? ==> Lists(c.rows, chart)
  }

  lemma {:induction false} CreateKeeps(w: World, chart: Chart, c: Command)
    requires Holds(chart) && c.Create? && Answer(w, chart, c).Success?
    ensures Holds(Answer(w, chart, c).value)
  {
    AddKeeps(chart, c.id, Answer(w, chart, c).value[c.id]);
  }

  lemma {:induction false} EditsKeep(w: World, chart: Chart, c: Command)
    requires Holds(chart) && (c.Update? || c.MakeGroup? || c.SetActive?) && Answer(w, chart, c).Success?
    ensures Holds(Answer(w, chart, c).value)
  {
    EditKeeps(chart, c.id, Answer(w, chart, c).value[c.id]);
    assert Answer(w, chart, c).value == chart[c.id := Answer(w, chart, c).value[c.id]];
  }

  lemma {:induction false} ProvisioningKeeps(chart: Chart, rows: seq<Coded>, specs: seq<Spec>, employee: nat)
    requires Holds(chart) && Lists(rows, chart) && ProvisionAccounts(chart, rows, specs, employee).Success?
    ensures Holds(ProvisionAccounts(chart, rows, specs, employee).value)
  {
    assert specs[..|specs|] == specs;
    ProvisionKeeps(Provisioning(chart, rows), specs, |specs|, employee);
  }

  lemma {:induction false} AfterKeeps(w: World, chart: Chart, c: Command)
    requires Holds(chart) && Faithful(chart, c)
    ensures Holds(After(w, chart, c))
  {
    if Answer(w, chart, c).Success? {
      match c
      case Create(_, _, _, _, _, _, _) => CreateKeeps(w, chart, c);
      case Move(id, newParent) => MoveKeeps(chart, id, newParent);
      case Delete(id) => DeleteKeeps(chart, id);
      case Provision(rows, specs, employee) => ProvisioningKeeps(chart, rows, specs, employee);
      case _ => EditsKeep(w, chart, c);
    }
  }

  datatype Step = Step(world: World, command: Command)

  function Run(steps: seq<Step>): Chart
  {
    if steps == [] then map[] else After(steps[|steps| - 1].world, Run(steps[..|steps| - 1]), steps[|steps| - 1].command)
  }

  predicate FaithfulRun(steps: seq<Step>)
  {
    steps == [] || (FaithfulRun(steps[..|steps| - 1]) && Faithful(Run(steps[..|steps| - 1]), steps[|steps| - 1].command))
  }

  /** Every run, whatever the rest of the books did in between: no cycles, postable accounts childless, colours on
      top only, codes unique, normal balances as the type says. */
  lemma {:induction false} RunHolds(steps: seq<Step>)
    requires FaithfulRun(steps)
    ensures Holds(Run(steps))
  {
    if steps == [] {
      assert Graded(map[], map[]);
    } else {
      RunHolds(steps[..|steps| - 1]);
      AfterKeeps(steps[|steps| - 1].world, Run(steps[..|steps| - 1]), steps[|steps| - 1].command);
    }
  }

  // ---- stopped accounts ----

  /** No active account hangs under a stopped one. */
  predicate ActiveOnly(chart: Chart)
  {
    forall a {:trigger HangsActive(chart, a)} :: a in chart ==> HangsActive(chart, a)
  }

  predicate HangsActive(chart: Chart, a: nat)
    requires a in chart
  {
    chart[a].active && chart[a].parent.Some? && chart[a].parent.value in chart ==> chart[chart[a].parent.value].active
  }

  /** Creating under a stopped group, or moving an active account under one: neither is refused. */
  predicate HangsUnderStopped(chart: Chart, c: Command)
  {
    match c
    case Create(_, _, _, _, parent, _, _) => parent.Some? && parent.value in chart && !chart[parent.value].active
    case Move(id, p) => id in chart && chart[id].active && p.Some? && p.value in chart && !chart[p.value].active
    case _ => false
  }

  lemma {:induction false} AddActive(chart: Chart, id: nat, a: Account)
    requires ActiveOnly(chart) && ParentsAreGroups(chart) && id !in chart && a.active && (a.parent.Some? ==> a.parent.value in chart)
    ensures ActiveOnly(chart[id := a]) <==> (a.parent.Some? ==> chart[a.parent.value].active)
  {
    var t := chart[id := a];
    assert HangsActive(t, id) <==> (a.parent.Some? ==> chart[a.parent.value].active);
    forall x | x in t && x != id ensures HangsActive(t, x) {
      assert HangsActive(chart, x) && ParentFits(chart, x);
    }
  }

  /** Changing one account's flags or parent keeps the rest. */
  lemma {:induction false} EditActive(chart: Chart, id: nat, a: Account)
    requires ActiveOnly(chart) && ParentsAreGroups(chart) && id in chart
    requires a.parent.Some? ==> a.parent.value in chart && a.parent.value != id
    requires a.active || !chart[id].active || !HasActiveChild(chart, id)
    ensures ActiveOnly(chart[id := a]) <==> (a.active && a.parent.Some? ==> chart[a.parent.value].active)
  {
    var t := chart[id := a];
    assert HangsActive(t, id) <==> (a.active && a.parent.Some? ==> chart[a.parent.value].active);
    forall x | x in t && x != id ensures HangsActive(t, x) {
      assert HangsActive(chart, x) && ParentFits(chart, x);
    }
  }

  lemma {:induction false} ParentIsAnother(chart: Chart, id: nat)
    requires Holds(chart) && id in chart && chart[id].parent.Some?
    ensures chart[id].parent.value in chart && chart[id].parent.value != id
  {
    var depth :| Graded(chart, depth);
    assert id in Parents(chart);
    assert ParentFits(chart, id);
  }

  /** Whether one accepted command leaves no active account under a stopped one: it does unless it hangs one there. */
  lemma {:induction false} StaysActiveOnly(w: World, chart: Chart, c: Command)
    requires Holds(chart) && ActiveOnly(chart) && !c.Provision? && Answer(w, chart, c).Success?
    ensures ActiveOnly(After(w, chart, c)) <==> !HangsUnderStopped(chart, c)
  {
    var t := After(w, chart, c);
    if c.Create? {
      AddActive(chart, c.id, t[c.id]);
    } else if c.Delete? {
      forall x | x in t ensures HangsActive(t, x) {
        assert HangsActive(chart, x);
      }
    } else {
      assert HangsActive(chart, c.id);
      if chart[c.id].parent.Some? {
        ParentIsAnother(chart, c.id);
      }
      if t != chart {
        EditActive(chart, c.id, t[c.id]);
        assert t == chart[c.id := t[c.id]];
      }
    }
  }

  lemma {:induction false} ProvisionsActive(p: Provisioning, specs: seq<Spec>, n: nat, employee: nat)
    requires Provisioned(p, specs) && ActiveOnly(p.chart) && n <= |specs| && Fold(p, specs[..n], ProvisionOne(employee)).Success?
    ensures ActiveOnly(Fold(p, specs[..n], ProvisionOne(employee)).value.chart)
  {
    if n > 0 {
      assert specs[..n][..n - 1] == specs[..n - 1];
      ProvisionsActive(p, specs, n - 1, employee);
      ProvisionKeeps(p, specs, n - 1, employee);
      var q := Fold(p, specs[..n - 1], ProvisionOne(employee)).value;
      if specs[n - 1].have.None? {
        var code := SuggestNext(q.rows, specs[n - 1].group).value;
        AddActive(q.chart, specs[n - 1].id, NewAccount(code, specs[n - 1], employee));
      }
    }
  }

  // ---- rolling balances up ----

  predicate ListsNodes(accounts: seq<RollUp.Node>, chart: Chart)
  {
    && RollUp.Distinct(accounts)
    && (forall i :: 0 <= i < |accounts| ==> accounts[i].id in chart && accounts[i].parent == chart[accounts[i].id].parent)
  }

  /** On a chart that holds, the roll-up works on a forest: its totals are the sums over descendants. */
  lemma {:induction false} ChartIsForest(chart: Chart, accounts: seq<RollUp.Node>)
    requires Holds(chart) && ListsNodes(accounts, chart)
    ensures exists depth :: RollUp.Forest(accounts, depth)
  {
    var known := RollUp.Known(accounts);
    var some :| Graded(chart, some);
    RollUp.ParentsLink(known, accounts);
    var parents := RollUp.Parents(known, accounts);
    forall a | a in parents ensures a in Parents(chart) && Parents(chart)[a] == parents[a] {
      var i :| 0 <= i < |accounts| && accounts[i].id == a;
      assert RollUp.Lookup(parents, accounts[i].id) == RollUp.Link(known, accounts[i]);
    }
    assert RollUp.Forest(accounts, some);
  }
}
