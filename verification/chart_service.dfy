/** The chart of accounts service: each operation does what ChartOfAccounts says of it. */
module ChartService {
  import opened Wrappers
  import opened AccountCode
  import opened ChartOfAccounts
  import Reports = FinancialReports

  /** Moving an account does not look at the rest of the books. */
  const NO_ONE := World({}, {}, {}, {})

  /** What a service may rely on before it starts: whatever it answers, a chart in order stays in order. */
  lemma {:induction false} Kept(w: World, chart: Chart, c: Command)
    ensures Holds(chart) && Faithful(chart, c) ==> Holds(After(w, chart, c))
  {
    if Holds(chart) && Faithful(chart, c) {
      AfterKeeps(w, chart, c);
    }
  }

  class ChartOfAccountsService {
    var chart: Chart

    constructor ()
      ensures chart == map[]
    {
      chart := map[];
    }

    method Create(w: World, id: nat, code: string, kind: Reports.Type, postable: bool,
                  parent: Option<nat>, party: Option<nat>, color: Option<Option<nat>>) returns (r: Outcome<Error>)
      modifies this
      ensures r.Pass? ==> CreateAccount(w, old(chart), id, code, kind, postable, parent, party, color) == Success(chart)
      ensures r.Fail? ==> chart == old(chart) && CreateAccount(w, chart, id, code, kind, postable, parent, party, color) == Failure(r.error)
      ensures Holds(old(chart)) ==> Holds(chart)
    {
      Kept(w, chart, Command.Create(id, code, kind, postable, parent, party, color));
      if HasCode(chart, code) {
        return Fail(DuplicateCode);
      }
      if parent.Some? {
        if parent.value !in chart {
          return Fail(ParentNotFound);
        }
        if chart[parent.value].postable {
          return Fail(ParentNotGroup);
        }
      }
      if color.Some? && parent.Some? {
        return Fail(ColorOnChild);
      }
      if party.Some? && party.value !in w.parties {
        return Fail(PartyNotFound);
      }
      if id in chart {
        return Fail(IdTaken);
      }
      chart := chart[id := Account(code, kind, Reports.NormalBalanceFor(kind), postable, true, parent, party, if color.Some? then color.value else None)];
      return Pass;
    }

    method Update(w: World, id: nat, party: Option<Option<nat>>, color: Option<Option<nat>>) returns (r: Outcome<Error>)
      modifies this
      ensures r.Pass? ==> UpdateAccount(w, old(chart), id, party, color) == Success(chart)
      ensures r.Fail? ==> chart == old(chart) && UpdateAccount(w, chart, id, party, color) == Failure(r.error)
      ensures Holds(old(chart)) ==> Holds(chart)
    {
      Kept(w, chart, Command.Update(id, party, color));
      if id !in chart {
        return Fail(AccountNotFound);
      }
      if color.Some? && color.value.Some? && chart[id].parent.Some? {
        return Fail(ColorOnChild);
      }
      if party.Some? && party.value.Some? && party.value.value !in w.parties {
        return Fail(PartyNotFound);
      }
      var after := chart[id];
      if party.Some? {
        after := after.(party := party.value);
      }
      if color.Some? {
        after := after.(color := color.value);
      }
      chart := chart[id := after];
      return Pass;
    }

    /** Climbs from the new parent; the climb ends even on a chart with a cycle. */
    method Move(id: nat, newParent: Option<nat>) returns (r: Outcome<Error>)
      modifies this
      ensures r.Pass? ==> MoveAccount(old(chart), id, newParent) == Success(chart)
      ensures r.Fail? ==> chart == old(chart) && MoveAccount(chart, id, newParent) == Failure(r.error)
      ensures Holds(old(chart)) ==> Holds(chart)
    {
      Kept(NO_ONE, chart, Command.Move(id, newParent));
      if id !in chart {
        return Fail(AccountNotFound);
      }
      if chart[id].parent == newParent {
        return Pass;
      }
      if newParent.Some? {
        var p := newParent.value;
        if p == id {
          return Fail(MoveIntoSelfOrDescendant);
        }
        if p !in chart {
          return Fail(ParentNotFound);
        }
        if chart[p].postable {
          return Fail(ParentNotGroup);
        }
        if chart[p].kind != chart[id].kind {
          return Fail(TypeMismatch);
        }
        var cursor, seen := chart[p].parent, {p};
        while cursor.Some? && cursor.value !in seen
          invariant chart == old(chart)
          invariant Meets(chart, id, cursor, seen) == Meets(chart, id, chart[p].parent, {p})
          decreases chart.Keys - seen, if cursor.Some? then 1 else 0
        {
          if cursor.value == id {
            return Fail(MoveIntoSelfOrDescendant);
          }
          SeenGrows(chart, cursor.value, seen);
          seen := seen + {cursor.value};
          cursor := ParentOf(chart, cursor.value);
        }
      }
      chart := chart[id := if newParent.Some? then chart[id].(parent := newParent, color := None) else chart[id].(parent := newParent)];
      return Pass;
    }

    method MakeGroup(w: World, id: nat) returns (r: Outcome<Error>)
      modifies this
      ensures r.Pass? ==> MakeGroupOf(w, old(chart), id) == Success(chart)
      ensures r.Fail? ==> chart == old(chart) && MakeGroupOf(w, chart, id) == Failure(r.error)
      ensures Holds(old(chart)) ==> Holds(chart)
    {
      Kept(w, chart, Command.MakeGroup(id));
      if id !in chart {
        return Fail(AccountNotFound);
      }
      if !chart[id].postable {
        return Pass;
      }
      if id in w.used || chart[id].party.Some? {
        return Fail(AccountInUse);
      }
      chart := chart[id := chart[id].(postable := false)];
      return Pass;
    }

    method Delete(w: World, id: nat) returns (r: Outcome<Error>)
      modifies this
      ensures r.Pass? ==> DeleteAccount(w, old(chart), id) == Success(chart)
      ensures r.Fail? ==> chart == old(chart) && DeleteAccount(w, chart, id) == Failure(r.error)
      ensures Holds(old(chart)) ==> Holds(chart)
    {
      Kept(w, chart, Command.Delete(id));
      if id !in chart {
        return Fail(AccountNotFound);
      }
      if id in w.used || chart[id].party.Some? || HasChildren(chart, id) {
        return Fail(AccountInUse);
      }
      chart := chart - {id};
      return Pass;
    }

    method SetActive(w: World, id: nat, active: bool, acknowledge: bool) returns (r: Outcome<Error>)
      modifies this
      ensures r.Pass? ==> SetActiveOf(w, old(chart), id, active, acknowledge) == Success(chart)
      ensures r.Fail? ==> chart == old(chart) && SetActiveOf(w, chart, id, active, acknowledge) == Failure(r.error)
      ensures Holds(old(chart)) ==> Holds(chart)
    {
      Kept(w, chart, Command.SetActive(id, active, acknowledge));
      if id !in chart {
        return Fail(AccountNotFound);
      }
      if chart[id].active == active {
        return Pass;
      }
      if active {
        var parent := chart[id].parent;
        if parent.Some? && parent.value in chart && !chart[parent.value].active {
          return Fail(ParentInactive);
        }
      } else {
        if id in w.mapped {
          return Fail(AccountMapped);
        }
        if HasActiveChild(chart, id) {
          return Fail(HasActiveChildren);
        }
        if !acknowledge && id in w.withBalance {
          return Fail(BalanceNotZero);
        }
      }
      chart := chart[id := chart[id].(active := active)];
      return Pass;
    }

    /** Whether every group set for the employee accounts can take them. */
    method LoadParentGroups(specs: seq<Spec>) returns (fit: bool)
      ensures fit <==> forall i :: 0 <= i < |specs| ==> GroupFits(chart, specs[i])
    {
      for i := 0 to |specs|
        invariant forall k :: 0 <= k < i ==> GroupFits(chart, specs[k])
      {
        if !GroupFits(chart, specs[i]) {
          return false;
        }
      }
      return true;
    }

    /** Creates what the employee is missing, each code suggested against the chart with the accounts just created;
        one that cannot be numbered undoes them all. */
    method ProvisionEmployeeAccounts(rows: seq<Coded>, specs: seq<Spec>, employee: nat) returns (r: Outcome<Error>)
      modifies this
      ensures r.Pass? ==> ProvisionAccounts(old(chart), rows, specs, employee) == Success(chart)
      ensures r.Fail? ==> chart == old(chart) && ProvisionAccounts(chart, rows, specs, employee) == Failure(r.error)
      ensures Holds(old(chart)) && Lists(rows, old(chart)) ==> Holds(chart)
    {
      var fit := LoadParentGroups(specs);
      if !fit {
        return Fail(ParentInvalid);
      }
      var p := Provisioning(chart, rows);
      var created: Chart := chart;
      var listed: seq<Coded> := rows;
      for i := 0 to |specs|
        invariant chart == old(chart)
        invariant Fold(p, specs[..i], ProvisionOne(employee)) == Success(Provisioning(created, listed))
      {
        FoldStep(p, specs, i, ProvisionOne(employee));
        var s := specs[i];
        if s.have.Some? {
          continue;
        }
        var code := SuggestNextChildCode(listed, s.group);
        if code.None? {
          FoldRefused(p, specs, i + 1, ProvisionOne(employee));
          return Fail(CodeExhausted);
        }
        if s.id in created {
          FoldRefused(p, specs, i + 1, ProvisionOne(employee));
          return Fail(IdTaken);
        }
        created := created[s.id := Account(code.value, s.kind, Reports.NormalBalanceFor(s.kind), true, true, Some(s.group), Some(employee), None)];
        listed := listed + [Coded(s.id, code.value, Some(s.group))];
      }
      assert specs[..|specs|] == specs;
      if Holds(chart) && Lists(rows, chart) {
        ProvisioningKeeps(chart, rows, specs, employee);
      }
      chart := created;
      return Pass;
    }
  }
}
