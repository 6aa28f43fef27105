/** Journal entries: the shape the posting engine demands, account balances, reversal. */
module Journal {
  import opened Sums
  import opened Wrappers

  /** The mapping keys automatic postings resolve; every key names its own account. */
  datatype Role =
    | Inventory | Grni | PriceVariance | ProjectExpense | CountLoss | CountGain | CostOfGoodsSold
    | Receivable | Payable | VatInput | VatOutput | SalesRevenue
    | SalaryExpense | GosiExpense | GosiPayable | AdvancesReceivable | NetPayPayable

  /** A mapped account, or one a document names itself by id. */
  datatype Account = Mapped(role: Role) | Own(id: nat)

  /** An absent side is 0. */
  datatype Line = Line(account: Account, debit: int, credit: int)

  function Dr(account: Account, amount: int): Line { Line(account, amount, 0) }
  function Cr(account: Account, amount: int): Line { Line(account, 0, amount) }

  /** Calendar days, counted from 1970-01-01; 9999-12-31 is the cut-off that stands for "no cut-off". */
  const FAR_FUTURE := 2932896
  type Day = d: int | d <= FAR_FUTURE witness 0

  datatype Entry = Entry(date: Day, lines: seq<Line>)
  type Ledger = seq<Entry>

  function DebitOf(l: Line): int { l.debit }
  function CreditOf(l: Line): int { l.credit }

  predicate OneSided(l: Line)
  {
    (0 < l.debit) != (0 < l.credit)
  }

  predicate Balances(lines: seq<Line>)
  {
    SumBy(lines, DebitOf) == SumBy(lines, CreditOf)
  }

  /** What validateShape accepts. */
  predicate ValidShape(lines: seq<Line>)
  {
    && 2 <= |lines|
    && (forall i :: 0 <= i < |lines| ==> OneSided(lines[i]))
    && Balances(lines)
  }

  datatype ShapeError = TooFewLines | NotOneSided(line: nat) | Unbalanced(debit: int, credit: int)

  /** The loop of validateShape: the first offending line is the one reported. */
  method ValidateShape(lines: seq<Line>) returns (r: Outcome<ShapeError>)
    ensures r.Pass? <==> ValidShape(lines)
    ensures r.Fail? && r.error.TooFewLines? <==> |lines| < 2
    ensures r.Fail? && r.error.NotOneSided? ==>
      && r.error.line < |lines| && !OneSided(lines[r.error.line])
      && forall i :: 0 <= i < r.error.line ==> OneSided(lines[i])
    ensures r.Fail? && r.error.Unbalanced? ==>
      r.error.debit == SumBy(lines, DebitOf) && r.error.credit == SumBy(lines, CreditOf)
  {
    if |lines| < 2 {
      return Fail(TooFewLines);
    }
    var debitTotal, creditTotal := 0, 0;
    for i := 0 to |lines|
      invariant forall j :: 0 <= j < i ==> OneSided(lines[j])
      invariant debitTotal == SumBy(lines[..i], DebitOf) && creditTotal == SumBy(lines[..i], CreditOf)
    {
      var hasDebit, hasCredit := lines[i].debit > 0, lines[i].credit > 0;
      if hasDebit == hasCredit {
        assert !OneSided(lines[i]);
        return Fail(NotOneSided(i));
      }
      SumByPrefix(lines, i, DebitOf);
      SumByPrefix(lines, i, CreditOf);
      debitTotal, creditTotal := debitTotal + lines[i].debit, creditTotal + lines[i].credit;
    }
    assert lines[..|lines|] == lines;
    if debitTotal != creditTotal {
      return Fail(Unbalanced(debitTotal, creditTotal));
    }
    return Pass;
  }

  /** An amount on one account, seen from an account. */
  function On(a: Account, account: Account, amount: int): int { if a == account then amount else 0 }

  /** Debit minus credit the lines put on one account. */
  function Net(lines: seq<Line>, a: Account): int
  {
    if lines == [] then 0
    else
      var l := lines[|lines| - 1];
      Net(lines[..|lines| - 1], a) + if l.account == a then l.debit - l.credit else 0
  }

  lemma {:induction false} NetConcat(s: seq<Line>, t: seq<Line>, a: Account)
    ensures Net(s + t, a) == Net(s, a) + Net(t, a)
  {
    if t == [] {
      assert s + t == s;
    } else {
      var n := |t| - 1;
      assert (s + t)[..|s + t| - 1] == s + t[..n];
      NetConcat(s, t[..n], a);
    }
  }

  /** The account's net debit over the entries dated on or before a day. */
  function NetUpTo(ledger: Ledger, a: Account, day: Day): int
  {
    if ledger == [] then 0
    else
      var e := ledger[|ledger| - 1];
      NetUpTo(ledger[..|ledger| - 1], a, day) + if e.date <= day then Net(e.lines, a) else 0
  }

  function NetDebit(ledger: Ledger, a: Account): int
  {
    NetUpTo(ledger, a, FAR_FUTURE)
  }

  lemma {:induction false} NetUpToSnoc(ledger: Ledger, e: Entry, a: Account, day: Day)
    ensures NetUpTo(ledger + [e], a, day) == NetUpTo(ledger, a, day) + if e.date <= day then Net(e.lines, a) else 0
  {
    assert (ledger + [e])[..|ledger|] == ledger;
  }

  predicate Sound(ledger: Ledger)
  {
    forall i :: 0 <= i < |ledger| ==> ValidShape(ledger[i].lines)
  }

  /** The mirrored entry reverseEntry posts. */
  function Mirror(l: Line): Line { Line(l.account, l.credit, l.debit) }

  function MirrorLines(lines: seq<Line>): (m: seq<Line>)
    ensures |m| == |lines| && forall i :: 0 <= i < |lines| ==> m[i] == Mirror(lines[i])
  {
    if lines == [] then [] else MirrorLines(lines[..|lines| - 1]) + [Mirror(lines[|lines| - 1])]
  }

  lemma {:induction false} MirrorSums(lines: seq<Line>, a: Account)
    ensures SumBy(MirrorLines(lines), DebitOf) == SumBy(lines, CreditOf)
    ensures SumBy(MirrorLines(lines), CreditOf) == SumBy(lines, DebitOf)
    ensures Net(MirrorLines(lines), a) == -Net(lines, a)
  {
    if lines != [] {
      MirrorSums(lines[..|lines| - 1], a);
      assert MirrorLines(lines)[..|lines| - 1] == MirrorLines(lines[..|lines| - 1]);
    }
  }

  lemma {:induction false} MirrorShape(lines: seq<Line>)
    ensures ValidShape(MirrorLines(lines)) <==> ValidShape(lines)
  {
    MirrorSums(lines, Mapped(Role.Inventory));
    MirrorSides(lines, MirrorLines(lines));
  }

  lemma {:induction false} MirrorSides(lines: seq<Line>, m: seq<Line>)
    requires |m| == |lines| && forall i :: 0 <= i < |lines| ==> m[i] == Mirror(lines[i])
    ensures (forall i :: 0 <= i < |m| ==> OneSided(m[i])) <==> forall i :: 0 <= i < |lines| ==> OneSided(lines[i])
  {
    forall i | 0 <= i < |lines| ensures OneSided(m[i]) == OneSided(lines[i]) {
      assert m[i] == Mirror(lines[i]);
    }
  }

  /** A reversal is itself acceptable exactly when the original is, and cancels it on every account;
      reversing it again gives the original back. */
  lemma {:induction false} ReversalCancels(lines: seq<Line>, a: Account)
    ensures ValidShape(MirrorLines(lines)) <==> ValidShape(lines)
    ensures Net(lines + MirrorLines(lines), a) == 0
    ensures MirrorLines(MirrorLines(lines)) == lines
  {
    MirrorShape(lines);
    MirrorSums(lines, a);
    NetConcat(lines, MirrorLines(lines), a);
  }
}
