/** Line arithmetic and the journal entries of invoices and notes, sales and supplier side alike. */
module Invoicing {
  import opened Sums
  import opened Journal
  import opened Rounding
  import opened Books

  /** net x rate%, the rate counted in ten-thousandths of a percent. */
  function TaxOn(net: int, rate: nat): (tax: int)
    ensures Nearest(net * rate, 100 * SCALE, tax)
    ensures 0 <= net ==> 0 <= tax
  {
    ProductSign(net, rate);
    RoundDivUnique(net * rate, 100 * SCALE, RoundDiv(net * rate, 100 * SCALE));
    RoundDiv(net * rate, 100 * SCALE)
  }

  /** A line priced on its own, booked to the account it names. */
  datatype PricedLine = PricedLine(account: Account, quantity: nat, unitPrice: nat, rate: nat)

  function NetOf(l: PricedLine): int { ValueOf(l.quantity, l.unitPrice) }
  function TaxOf(l: PricedLine): int { TaxOn(NetOf(l), l.rate) }

  datatype Totals = Totals(net: int, tax: int)

  function Gross(t: Totals): int { t.net + t.tax }

  function TotalsOf(lines: seq<PricedLine>): Totals
  {
    Totals(SumBy(lines, NetOf), SumBy(lines, TaxOf))
  }

  /** revenueByAccount / netByAccount: net amounts grouped by the account they are booked to. */
  function ByAccount(lines: seq<PricedLine>): Tally<Account>
  {
    if lines == [] then []
    else
      var l := lines[|lines| - 1];
      Add(ByAccount(lines[..|lines| - 1]), l.account, NetOf(l))
  }

  /** The grouping loop. */
  method GroupByAccount(lines: seq<PricedLine>) returns (totals: Tally<Account>)
    ensures totals == ByAccount(lines)
  {
    totals := [];
    for i := 0 to |lines|
      invariant totals == ByAccount(lines[..i])
    {
      assert lines[..i + 1][..i] == lines[..i];
      totals := Add(totals, lines[i].account, NetOf(lines[i]));
    }
    assert lines[..|lines|] == lines;
  }

  predicate NonNegative(t: Tally<Account>)
  {
    forall i :: 0 <= i < |t| ==> 0 <= t[i].1
  }

  lemma {:induction false} AddNonNegative(t: Tally<Account>, a: Account, v: nat)
    requires NonNegative(t)
    ensures NonNegative(Add(t, a, v))
  {
  }

  lemma {:induction false} ByAccountSums(lines: seq<PricedLine>)
    ensures Distinct(ByAccount(lines)) && NonNegative(ByAccount(lines))
    ensures Total(ByAccount(lines)) == TotalsOf(lines).net
    ensures 0 <= TotalsOf(lines).net && 0 <= TotalsOf(lines).tax
  {
    if lines != [] {
      var before, l := lines[..|lines| - 1], lines[|lines| - 1];
      ByAccountSums(before);
      var t, net := ByAccount(before), NetOf(l);
      AddEffect(t, l.account, net);
      AddNonNegative(t, l.account, net);
      assert ByAccount(lines) == Add(t, l.account, net);
      assert SumBy(lines, NetOf) == SumBy(before, NetOf) + net;
      assert SumBy(lines, TaxOf) == SumBy(before, TaxOf) + TaxOf(l);
    }
  }

  /** What the lines naming an account book to it. */
  function NamedOn(lines: seq<PricedLine>, a: Account): int
  {
    if lines == [] then 0
    else
      var l := lines[|lines| - 1];
      NamedOn(lines[..|lines| - 1], a) + if l.account == a then NetOf(l) else 0
  }

  lemma {:induction false} ByAccountNames(lines: seq<PricedLine>, a: Account)
    ensures Get(ByAccount(lines), a) == NamedOn(lines, a)
  {
    if lines != [] {
      var before, l := lines[..|lines| - 1], lines[|lines| - 1];
      ByAccountNames(before, a);
      ByAccountSums(before);
      AddGet(ByAccount(before), l.account, NetOf(l), a);
    }
  }

  /** Grouping keeps every account once, loses no amount, and books to each account what the lines naming it do. */
  lemma {:induction false} ByAccountGroups(lines: seq<PricedLine>)
    ensures Distinct(ByAccount(lines)) && NonNegative(ByAccount(lines))
    ensures Total(ByAccount(lines)) == TotalsOf(lines).net
    ensures forall a :: Get(ByAccount(lines), a) == NamedOn(lines, a)
    ensures 0 <= TotalsOf(lines).net && 0 <= TotalsOf(lines).tax
  {
    ByAccountSums(lines);
    forall a {
      ByAccountNames(lines, a);
    }
  }

  /** One line per account with something on it, all on one side. */
  function Lines(t: Tally<Account>, debit: bool): seq<Line>
  {
    if t == [] then []
    else
      var e := t[|t| - 1];
      Lines(t[..|t| - 1], debit) + if debit then DrIf(e.0, e.1) else CrIf(e.0, e.1)
  }

  predicate AllOneSided(s: seq<Line>)
  {
    forall i :: 0 <= i < |s| ==> OneSided(s[i])
  }

  function Signed(debit: bool, amount: int): int { if debit then amount else -amount }

  lemma {:induction false} LinesSums(t: Tally<Account>, debit: bool)
    requires NonNegative(t)
    ensures SumBy(Lines(t, debit), DebitOf) == if debit then Total(t) else 0
    ensures SumBy(Lines(t, debit), CreditOf) == if debit then 0 else Total(t)
    ensures AllOneSided(Lines(t, debit))
    ensures Lines(t, debit) == [] ==> Total(t) == 0
  {
    if t != [] {
      var before, e := t[..|t| - 1], t[|t| - 1];
      LinesSums(before, debit);
      PieceSums(e.0, e.1);
      ConcatSums(Lines(before, debit), if debit then DrIf(e.0, e.1) else CrIf(e.0, e.1));
    }
  }

  lemma {:induction false} LinesNet(t: Tally<Account>, debit: bool, a: Account)
    requires Distinct(t)
    ensures Net(Lines(t, debit), a) == Signed(debit, Get(t, a))
  {
    if t != [] {
      var before, e := t[..|t| - 1], t[|t| - 1];
      LinesNet(before, debit, a);
      NetConcat(Lines(before, debit), if debit then DrIf(e.0, e.1) else CrIf(e.0, e.1), a);
      LastEntry(t, a);
    }
  }

  lemma {:induction false} ConcatSums(s: seq<Line>, t: seq<Line>)
    ensures SumBy(s + t, DebitOf) == SumBy(s, DebitOf) + SumBy(t, DebitOf)
    ensures SumBy(s + t, CreditOf) == SumBy(s, CreditOf) + SumBy(t, CreditOf)
  {
    SumByConcat(s, t, DebitOf);
    SumByConcat(s, t, CreditOf);
  }

  lemma {:induction false} PieceSums(account: Account, amount: int)
    ensures SumBy(DrIf(account, amount), DebitOf) == amount && SumBy(DrIf(account, amount), CreditOf) == 0
    ensures SumBy(CrIf(account, amount), CreditOf) == amount && SumBy(CrIf(account, amount), DebitOf) == 0
    ensures 0 <= amount ==> AllOneSided(DrIf(account, amount)) && AllOneSided(CrIf(account, amount))
  {
    SumBySnoc([], Dr(account, amount), DebitOf);
    SumBySnoc([], Dr(account, amount), CreditOf);
    SumBySnoc([], Cr(account, amount), DebitOf);
    SumBySnoc([], Cr(account, amount), CreditOf);
    assert [] + [Dr(account, amount)] == [Dr(account, amount)] && [] + [Cr(account, amount)] == [Cr(account, amount)];
  }

  lemma {:induction false} SignedPieceSums(account: Account, amount: int)
    ensures SumBy(DrSigned(account, amount), DebitOf) - SumBy(DrSigned(account, amount), CreditOf) == amount
    ensures AllOneSided(DrSigned(account, amount))
  {
    PieceSums(account, amount);
    PieceSums(account, -amount);
  }

  lemma {:induction false} OneLine(l: Line)
    ensures SumBy([l], DebitOf) == l.debit && SumBy([l], CreditOf) == l.credit
    ensures AllOneSided([l]) <==> OneSided(l)
    ensures forall a :: Net([l], a) == if a == l.account then l.debit - l.credit else 0
  {
    assert [l][..0] == [];
    assert AllOneSided([l]) ==> OneSided([l][0]);
  }

  /** Sums, sides and balances of three pieces put together. */
  lemma {:induction false} Join(x: seq<Line>, y: seq<Line>, z: seq<Line>)
    ensures SumBy(x + y + z, DebitOf) == SumBy(x, DebitOf) + SumBy(y, DebitOf) + SumBy(z, DebitOf)
    ensures SumBy(x + y + z, CreditOf) == SumBy(x, CreditOf) + SumBy(y, CreditOf) + SumBy(z, CreditOf)
    ensures AllOneSided(x + y + z) <==> AllOneSided(x) && AllOneSided(y) && AllOneSided(z)
    ensures forall a :: Net(x + y + z, a) == Net(x, a) + Net(y, a) + Net(z, a)
    ensures ValidShape(x + y + z) <==>
      && 2 <= |x| + |y| + |z| && AllOneSided(x) && AllOneSided(y) && AllOneSided(z)
      && SumBy(x, DebitOf) + SumBy(y, DebitOf) + SumBy(z, DebitOf) == SumBy(x, CreditOf) + SumBy(y, CreditOf) + SumBy(z, CreditOf)
  {
    ConcatSums(x, y);
    ConcatSums(x + y, z);
    forall a ensures Net(x + y + z, a) == Net(x, a) + Net(y, a) + Net(z, a) {
      NetConcat(x, y, a);
      NetConcat(x + y, z, a);
    }
    JoinSides(x, y);
    JoinSides(x + y, z);
  }

  lemma {:induction false} JoinSides(x: seq<Line>, y: seq<Line>)
    ensures AllOneSided(x + y) <==> AllOneSided(x) && AllOneSided(y)
  {
    if AllOneSided(x + y) {
      assert forall i :: 0 <= i < |x| ==> x[i] == (x + y)[i];
      assert forall i :: 0 <= i < |y| ==> y[i] == (x + y)[|x| + i];
    }
  }

  /** Two lines for one amount balance, and are acceptable exactly when the amount is positive. */
  lemma {:induction false} PairShape(debit: Account, credit: Account, amount: int)
    ensures ValidShape([Dr(debit, amount), Cr(credit, amount)]) <==> 0 < amount
    ensures forall a ::
      Net([Dr(debit, amount), Cr(credit, amount)], a) == (if a == debit then amount else 0) - (if a == credit then amount else 0)
  {
    OneLine(Dr(debit, amount));
    OneLine(Cr(credit, amount));
    Join([Dr(debit, amount)], [], [Cr(credit, amount)]);
    assert [Dr(debit, amount)] + [] + [Cr(credit, amount)] == [Dr(debit, amount), Cr(credit, amount)];
  }

  // ---- the entries ----

  /** The control account takes the gross on one side; the accounts the lines name and VAT take the other. */
  function DocumentEntry(control: Account, vat: Account, controlDebited: bool, byAccount: Tally<Account>, t: Totals): seq<Line>
  {
    if controlDebited then [Dr(control, Gross(t))] + Lines(byAccount, false) + CrIf(vat, t.tax)
    else Lines(byAccount, true) + DrIf(vat, t.tax) + [Cr(control, Gross(t))]
  }

  predicate Tallied(byAccount: Tally<Account>, t: Totals)
  {
    Distinct(byAccount) && NonNegative(byAccount) && Total(byAccount) == t.net && 0 <= t.tax && 0 <= t.net
  }

  /** One line against two one-sided pieces worth net and tax on the other side. */
  lemma {:induction false} AgainstAccepted(one: Line, lines: seq<Line>, tax: seq<Line>, net: nat, vat: nat)
    requires AllOneSided(lines) && AllOneSided(tax)
    requires SumBy(lines, DebitOf) + SumBy(tax, DebitOf) - SumBy(lines, CreditOf) - SumBy(tax, CreditOf) == one.credit - one.debit
    requires if one.debit == 0 then one.credit == net + vat else one.credit == 0 && one.debit == net + vat
    requires 0 < net + vat ==> 0 < |lines| + |tax|
    ensures ValidShape([one] + lines + tax) <==> 0 < net + vat
    ensures ValidShape(lines + tax + [one]) <==> 0 < net + vat
  {
    OneLine(one);
    Join([one], lines, tax);
    Join(lines, tax, [one]);
  }

  /** Such an entry is acceptable exactly when there is something to pay, whatever accounts the lines name. */
  lemma {:induction false} DocumentEntryAccepted(control: Account, vat: Account, debited: bool, byAccount: Tally<Account>, t: Totals)
    requires Tallied(byAccount, t)
    ensures ValidShape(DocumentEntry(control, vat, debited, byAccount, t)) <==> 0 < Gross(t)
  {
    LinesSums(byAccount, !debited);
    PieceSums(vat, t.tax);
    AgainstAccepted(if debited then Dr(control, Gross(t)) else Cr(control, Gross(t)),
                    Lines(byAccount, !debited), if debited then CrIf(vat, t.tax) else DrIf(vat, t.tax), t.net, t.tax);
  }

  /** What such an entry puts on an account. */
  lemma {:induction false} DocumentEntryNet(control: Account, vat: Account, debited: bool, byAccount: Tally<Account>, t: Totals, a: Account)
    requires Distinct(byAccount)
    ensures Net(DocumentEntry(control, vat, debited, byAccount, t), a)
         == Signed(debited, (if a == control then Gross(t) else 0) - Get(byAccount, a) - if a == vat then t.tax else 0)
  {
    LinesNet(byAccount, !debited, a);
    if debited {
      OneLine(Dr(control, Gross(t)));
      Join([Dr(control, Gross(t))], Lines(byAccount, false), CrIf(vat, t.tax));
    } else {
      OneLine(Cr(control, Gross(t)));
      Join(Lines(byAccount, true), DrIf(vat, t.tax), [Cr(control, Gross(t))]);
    }
  }
}
