/** When each change to the chart is accepted, and what no command may do to an account that is there. */
module ChartRules {
  import opened Wrappers
  import opened ChartOfAccounts
  import Reports = FinancialReports

  predicate NoChild(chart: Chart, id: nat)
  {
    forall a :: a in chart ==> chart[a].parent != Some(id)
  }

  predicate NoActiveChild(chart: Chart, id: nat)
  {
    forall a :: a in chart && chart[a].active ==> chart[a].parent != Some(id)
  }

  predicate UnderActive(chart: Chart, id: nat)
    requires id in chart
  {
    chart[id].parent.None? || chart[id].parent.value !in chart || chart[chart[id].parent.value].active
  }

  /** An account is deleted exactly when nothing records against it, it is no party's and nothing hangs under it. */
  lemma {:induction false} Deletes(w: World, chart: Chart, id: nat)
    ensures Answer(w, chart, Command.Delete(id)).Success? <==>
      id in chart && id !in w.used && chart[id].party.None? && NoChild(chart, id)
    ensures After(w, chart, Command.Delete(id)) == if Answer(w, chart, Command.Delete(id)).Success? then map a | a in chart && a != id :: chart[a] else chart
  {
  }

  /** An account is made a group exactly when it is one already, or nothing records against it and it is no party's. */
  lemma {:induction false} MakesGroup(w: World, chart: Chart, id: nat)
    ensures Answer(w, chart, Command.MakeGroup(id)).Success? <==>
      id in chart && (!chart[id].postable || (id !in w.used && chart[id].party.None?))
    ensures Answer(w, chart, Command.MakeGroup(id)).Success? ==>
      id in chart && After(w, chart, Command.MakeGroup(id)) == chart[id := chart[id].(postable := false)]
  {
    if id in chart && !chart[id].postable {
      assert chart[id := chart[id].(postable := false)] == chart;
    }
  }

  /** An account is stopped exactly when no automatic posting is mapped to it, nothing active hangs under it, and it has no
      balance or that was acknowledged; it is restarted exactly under an active group or none. */
  lemma {:induction false} SetsActive(w: World, chart: Chart, id: nat, acknowledge: bool)
    requires id in chart
    ensures Answer(w, chart, Command.SetActive(id, false, acknowledge)).Success? <==>
      !chart[id].active || (id !in w.mapped && NoActiveChild(chart, id) && (acknowledge || id !in w.withBalance))
    ensures Answer(w, chart, Command.SetActive(id, true, acknowledge)).Success? <==> chart[id].active || UnderActive(chart, id)
    ensures forall active :: Answer(w, chart, Command.SetActive(id, active, acknowledge)).Success? ==>
      After(w, chart, Command.SetActive(id, active, acknowledge)) == chart[id := chart[id].(active := active)]
  {
    forall active | chart[id].active == active ensures chart[id := chart[id].(active := active)] == chart {}
  }

  /** An account is created exactly when its code is new, its parent, if any, is a group, only a top account is coloured, and
      its party is known; it is new, active, and of the normal balance of its type. */
  lemma {:induction false} Creates(w: World, chart: Chart, id: nat, code: string, kind: Reports.Type, postable: bool,
                                   parent: Option<nat>, party: Option<nat>, color: Option<Option<nat>>)
    ensures var c := Command.Create(id, code, kind, postable, parent, party, color);
      && (Answer(w, chart, c).Success? <==>
            && id !in chart && (forall a :: a in chart ==> chart[a].code != code)
            && (parent.Some? ==> parent.value in chart && !chart[parent.value].postable && color.None?)
            && (party.Some? ==> party.value in w.parties))
      && (Answer(w, chart, c).Success? ==>
            && After(w, chart, c).Keys == chart.Keys + {id} && (forall a :: a in chart ==> After(w, chart, c)[a] == chart[a])
            && var made := After(w, chart, c)[id];
               && made.code == code && made.kind == kind && made.postable == postable && made.active && made.parent == parent && made.party == party
               && made.color == (if color.Some? then color.value else None)
               && (made.normal == Reports.DebitNormal <==> kind == Reports.Asset || kind == Reports.Expense))
  {
  }

  /** What may have changed an account that was there: only the command made for it, and under its conditions. */
  predicate Lawful(w: World, chart: Chart, c: Command, id: nat, before: Account, after: Account)
    requires id in chart
  {
    && after.code == before.code && after.kind == before.kind && after.normal == before.normal
    && (after.postable != before.postable ==> c == Command.MakeGroup(id) && before.postable && id !in w.used && before.party.None?)
    && (after.active && !before.active ==> c.SetActive? && c.id == id && c.active && UnderActive(chart, id))
    && (before.active && !after.active ==>
          && c.SetActive? && c.id == id && !c.active
          && id !in w.mapped && NoActiveChild(chart, id) && (c.acknowledge || id !in w.withBalance))
    && (after.parent != before.parent ==> c == Command.Move(id, after.parent))
    && (after.party != before.party ==>
          c.Update? && c.id == id && c.linkTo == Some(after.party) && (after.party.Some? ==> after.party.value in w.parties))
    && (after.color != before.color ==>
          || (c.Update? && c.id == id && c.color == Some(after.color) && (after.color.Some? ==> before.parent.None?))
          || (c.Move? && c.id == id && c.newParent.Some? && after.color.None?))
  }

  /** Whatever is asked of the chart, an account only goes when it could be deleted, and only changes as its own command may:
      one that is recorded against stays, keeps its code and type, and never becomes a group. */
  lemma {:induction false} OnlyLawfully(w: World, chart: Chart, c: Command, id: nat)
    requires id in chart
    ensures var after := After(w, chart, c);
      if id in after then Lawful(w, chart, c, id, chart[id], after[id])
      else c == Command.Delete(id) && id !in w.used && chart[id].party.None? && NoChild(chart, id)
  {
    if c.Provision? {
      ProvisioningAdds(chart, c.rows, c.specs, c.employee);
    } else if c.Create? {
      Creates(w, chart, c.id, c.code, c.kind, c.postable, c.parent, c.party, c.color);
    } else if c.SetActive? && c.id == id {
      SetsActive(w, chart, id, c.acknowledge);
    }
  }

  lemma {:induction false} FoldAdds(p: Provisioning, specs: seq<Spec>, employee: nat)
    ensures var r := Fold(p, specs, ProvisionOne(employee));
      r.Success? ==> forall a :: a in p.chart ==> a in r.value.chart && r.value.chart[a] == p.chart[a]
  {
    if specs != [] {
      FoldAdds(p, specs[..|specs| - 1], employee);
    }
  }

  lemma {:induction false} ProvisioningAdds(chart: Chart, rows: seq<AccountCode.Coded>, specs: seq<Spec>, employee: nat)
    ensures var r := ProvisionAccounts(chart, rows, specs, employee);
      r.Success? ==> forall a :: a in chart ==> a in r.value && r.value[a] == chart[a]
  {
    FoldAdds(Provisioning(chart, rows), specs, employee);
  }
}
