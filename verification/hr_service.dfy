/** The services over those tables; each operation inserts what HrBooks plans for it, or nothing. */
module HrService {
  import opened Wrappers
  import opened Sums
  import opened Journal
  import opened Payroll
  import opened HrBooks
  import opened HrLocks

  /** Books in order, an operation that keeps to the accounts' purposes and each employee once on the roster. */
  ghost predicate Ready(use: Account -> Use, b: Books, w: Work)
  {
    Separate(use) && Respects(use, w) && BooksHold(use, b) && Startable(b, w)
  }

  /** Whatever an operation inserts leaves the books in order. */
  lemma {:induction false} DoneKeeps(b: Books, w: Work)
    ensures PlanOf(b, w).Some? ==> forall use :: Ready(use, b, w) ==> BooksHold(use, Applied(b, PlanOf(b, w).value))
  {
    if PlanOf(b, w).Some? {
      forall use | Ready(use, b, w) ensures BooksHold(use, Applied(b, PlanOf(b, w).value)) {
        PlanStandsOnReading(use, b, w);
        JustRead(b, w);
        CommitKeepsBooks(use, b, LocksFor(b, w), PlanOf(b, w).value);
      }
    }
  }

  class HrTransactions {
    var books: Books

    constructor ()
      ensures books == EMPTY_BOOKS
    {
      books := EMPTY_BOOKS;
    }

    method GrantAdvance(advance: Advance, cash: Account, date: Day) returns (done: bool)
      modifies this
      ensures done <==> PlanOf(old(books), Grant(advance, cash, date)).Some?
      ensures books == if done then Applied(old(books), PlanOf(old(books), Grant(advance, cash, date)).value) else old(books)
      ensures forall use :: Ready(use, old(books), Grant(advance, cash, date)) ==> BooksHold(use, books)
    {
      DoneKeeps(books, Grant(advance, cash, date));
      var entry := [Dr(advance.account, advance.amount), Cr(cash, advance.amount)];
      var shape := ValidateShape(entry);
      if shape.Fail? {
        return false;
      }
      books := books.(advances := books.advances + [advance], ledger := books.ledger + [Entry(date, entry)]);
      UnchangedRows(old(books));
      return true;
    }

    method RepayAdvance(which: nat, amount: nat, cash: Account, date: Day) returns (done: bool)
      modifies this
      ensures done <==> PlanOf(old(books), Repay(which, amount, cash, date)).Some?
      ensures books == if done then Applied(old(books), PlanOf(old(books), Repay(which, amount, cash, date)).value) else old(books)
      ensures forall use :: Ready(use, old(books), Repay(which, amount, cash, date)) ==> BooksHold(use, books)
    {
      DoneKeeps(books, Repay(which, amount, cash, date));
      if |books.advances| <= which {
        return false;
      }
      var remaining := Remaining(books.advances, books.taken, which);
      if remaining <= 0 || amount > remaining {
        return false;
      }
      var entry := [Dr(cash, amount), Cr(books.advances[which].account, amount)];
      var shape := ValidateShape(entry);
      if shape.Fail? {
        return false;
      }
      books := books.(taken := books.taken + [Taken(which, amount)], ledger := books.ledger + [Entry(date, entry)]);
      UnchangedRows(old(books));
      return true;
    }

    method CreatePayrollRun(run: nat, roster: seq<Employee>, date: Day) returns (done: bool)
      modifies this
      ensures done <==> PlanOf(old(books), RunPayroll(run, roster, date)).Some?
      ensures books == if done then Applied(old(books), PlanOf(old(books), RunPayroll(run, roster, date)).value) else old(books)
      ensures forall use :: Ready(use, old(books), RunPayroll(run, roster, date)) ==> BooksHold(use, books)
    {
      DoneKeeps(books, RunPayroll(run, roster, date));
      if exists i :: 0 <= i < |books.lines| && books.lines[i].run == run {
        return false;
      }
      var f := ComputeRun(books.advances, books.taken, run, roster);
      var entry := EntryOf(f);
      var shape := ValidateShape(entry);
      if shape.Fail? || exists i :: 0 <= i < |f.lines| && f.lines[i].net < 0 {
        return false;
      }
      books := Applied(books, PayrollRows(f, date));
      return true;
    }

    method RemitGosi(amount: nat, cash: Account, date: Day) returns (done: bool)
      modifies this
      ensures done <==> PlanOf(old(books), PayGosi(amount, cash, date)).Some?
      ensures books == if done then Applied(old(books), PlanOf(old(books), PayGosi(amount, cash, date)).value) else old(books)
      ensures forall use :: Ready(use, old(books), PayGosi(amount, cash, date)) ==> BooksHold(use, books)
    {
      DoneKeeps(books, PayGosi(amount, cash, date));
      var outstanding := GosiOutstanding(books);
      if outstanding <= 0 || amount > outstanding {
        return false;
      }
      var entry := PaymentOf([(Mapped(GosiPayable), amount)], cash);
      var shape := ValidateShape(entry);
      if shape.Fail? {
        return false;
      }
      books := books.(gosiPaid := books.gosiPaid + [amount], ledger := books.ledger + [Entry(date, entry)]);
      UnchangedRows(old(books));
      return true;
    }

    method PayNetSalaries(run: nat, who: Option<set<nat>>, cash: Account, date: Day) returns (done: bool)
      modifies this
      ensures done <==> PlanOf(old(books), PaySalaries(run, who, cash, date)).Some?
      ensures books == if done then Applied(old(books), PlanOf(old(books), PaySalaries(run, who, cash, date)).value) else old(books)
      ensures forall use :: Ready(use, old(books), PaySalaries(run, who, cash, date)) ==> BooksHold(use, books)
    {
      DoneKeeps(books, PaySalaries(run, who, cash, date));
      var items := Unpaid(books, run, who, |books.lines|);
      if items == [] {
        return false;
      }
      var byAccount := GroupByAccount(books.lines, items);
      var entry := PaymentOf(byAccount, cash);
      var shape := ValidateShape(entry);
      if shape.Fail? {
        return false;
      }
      books := books.(paid := books.paid + items, ledger := books.ledger + [Entry(date, entry)]);
      UnchangedRows(old(books));
      return true;
    }

    /** The byAccount map. */
    method GroupByAccount(lines: seq<PayLine>, items: seq<nat>) returns (byAccount: Tally<Account>)
      ensures byAccount == ByPayAccount(lines, items)
    {
      byAccount := [];
      for i := 0 to |items|
        invariant byAccount == ByPayAccount(lines, items[..i])
      {
        assert items[..i + 1][..i] == items[..i];
        if items[i] < |lines| {
          byAccount := Add(byAccount, lines[items[i]].account, lines[items[i]].net);
        }
      }
      assert items[..|items|] == items;
    }
  }

  lemma {:induction false} UnchangedRows(b: Books)
    ensures b.advances + [] == b.advances && b.taken + [] == b.taken && b.gosiOwed + [] == b.gosiOwed
    ensures b.gosiPaid + [] == b.gosiPaid && b.lines + [] == b.lines && b.paid + [] == b.paid
  {
  }
}
