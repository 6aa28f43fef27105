/** Payroll runs, repayments, remittances and salary payments at once: each takes its advisory locks in a fixed
    order, then reads, then inserts what it planned. */
module HrLocks {
  import opened Wrappers
  import opened Sums
  import opened Journal
  import opened Payroll
  import opened HrBooks

  datatype Lock = Gosi | RunLock(run: nat) | AdvancesOf(employee: nat)

  function Rank(l: Lock): nat { if l.AdvancesOf? then l.employee + 1 else 0 }

  predicate Rising(ids: seq<nat>)
  {
    forall i, j :: 0 <= i < j < |ids| ==> ids[i] < ids[j]
  }

  /** Into its place, once. */
  function InsertId(id: nat, ids: seq<nat>): seq<nat>
  {
    if ids == [] then [id]
    else
      var n := |ids| - 1;
      if ids[n] < id then ids + [id] else if ids[n] == id then ids else InsertId(id, ids[..n]) + [ids[n]]
  }

  lemma {:induction false} InsertIdRises(id: nat, ids: seq<nat>)
    requires Rising(ids)
    ensures Rising(InsertId(id, ids))
    ensures forall x :: x in InsertId(id, ids) <==> x == id || x in ids
  {
    if ids != [] {
      var n := |ids| - 1;
      var front := ids[..n];
      InsertIdRises(id, front);
      assert ids == front + [ids[n]];
      var r := InsertId(id, front);
      assert forall i :: 0 <= i < |r| ==> r[i] in r;
      assert forall i :: 0 <= i < n ==> front[i] < ids[n];
    }
  }

  /** [...new Set(ids)].sort() */
  function SortedIds(ids: seq<nat>): seq<nat>
  {
    if ids == [] then [] else InsertId(ids[|ids| - 1], SortedIds(ids[..|ids| - 1]))
  }

  lemma {:induction false} SortedIdsRise(ids: seq<nat>)
    ensures Rising(SortedIds(ids)) && forall x :: x in SortedIds(ids) <==> x in ids
  {
    if ids != [] {
      var front, last := ids[..|ids| - 1], ids[|ids| - 1];
      SortedIdsRise(front);
      InsertIdRises(last, SortedIds(front));
      assert ids == front + [last];
    }
  }

  function EmployeeIds(roster: seq<Employee>): seq<nat>
  {
    seq(|roster|, i requires 0 <= i < |roster| => roster[i].id)
  }

  function AdvanceLocks(ids: seq<nat>): seq<Lock>
  {
    seq(|ids|, i requires 0 <= i < |ids| => AdvancesOf(ids[i]))
  }

  /** The locks a transaction takes, in the order it takes them. */
  function LocksFor(b: Books, w: Work): seq<Lock>
  {
    match w
    case Grant(_, _, _) => []
    case Repay(which, _, _, _) => if which < |b.advances| then [AdvancesOf(b.advances[which].employee)] else []
    case RunPayroll(_, roster, _) => AdvanceLocks(SortedIds(EmployeeIds(roster)))
    case PayGosi(_, _, _) => [Gosi]
    case PaySalaries(run, _, _, _) => [RunLock(run)]
  }

  datatype Session = Session(work: Work, want: seq<Lock>, held: nat, plan: Option<Books>)

  datatype State = State(books: Books, sessions: map<nat, Session>)

  datatype Event = Begin(id: nat, work: Work) | Acquire(id: nat) | Read(id: nat) | Commit(id: nat) | Abort(id: nat)

  predicate Holding(x: Session, l: Lock)
  {
    exists i :: 0 <= i < x.held && i < |x.want| && x.want[i] == l
  }

  predicate Free(s: State, id: nat, l: Lock)
  {
    forall o :: o in s.sessions && o != id ==> !Holding(s.sessions[o], l)
  }

  /** An employee is on the roster once, and a repayment names an advance there is. */
  predicate Startable(b: Books, w: Work)
  {
    match w
    case RunPayroll(_, roster, _) => forall i, j :: 0 <= i < j < |roster| ==> roster[i].id != roster[j].id
    case Repay(which, _, _, _) => which < |b.advances|
    case _ => true
  }

  function Ended(s: State, id: nat): State { s.(sessions := s.sessions - {id}) }

  function With(s: State, id: nat, x: Session): State { s.(sessions := s.sessions[id := x]) }

  /** Takes the session's next lock, if no one else holds it. */
  function Acquired(s: State, id: nat): State
    requires id in s.sessions
  {
    var x := s.sessions[id];
    if x.held < |x.want| && Free(s, id, x.want[x.held]) then With(s, id, x.(held := x.held + 1)) else s
  }

  /** The unique key on a run's period refuses a second one, whatever was read before. */
  predicate Clashes(b: Books, p: Books)
  {
    exists i :: 0 <= i < |p.lines| && HasRun(b.lines, p.lines[i].run)
  }

  function Next(s: State, e: Event): State
  {
    if e.Begin? then
      if e.id in s.sessions || !Startable(s.books, e.work) then s
      else With(s, e.id, Session(e.work, LocksFor(s.books, e.work), 0, None))
    else if e.id !in s.sessions then s
    else
      var x := s.sessions[e.id];
      match e
      case Begin(_, _) => s
      case Acquire(id) => Acquired(s, id)
      case Read(id) =>
        if x.held < |x.want| || x.plan.Some? then s
        else if PlanOf(s.books, x.work).None? then Ended(s, id)
        else With(s, id, x.(plan := PlanOf(s.books, x.work)))
      case Commit(id) =>
        if x.plan.None? then s
        else if Clashes(s.books, x.plan.value) then Ended(s, id)
        else State(Applied(s.books, x.plan.value), s.sessions - {id})
      case Abort(id) => Ended(s, id)
  }

  function Run(events: seq<Event>): State
  {
    if events == [] then State(EMPTY_BOOKS, map[]) else Next(Run(events[..|events| - 1]), events[|events| - 1])
  }

  predicate Named(use: Account -> Use, events: seq<Event>)
  {
    forall i :: 0 <= i < |events| && events[i].Begin? ==> Respects(use, events[i].work)
  }

  // ---- what a plan relies on ----

  predicate TakesFit(advances: seq<Advance>, taken: seq<Taken>, want: seq<Lock>, takes: seq<Taken>)
  {
    && Known(advances, takes)
    && (forall i :: 0 <= i < |takes| ==> takes[i].advance < |advances| && AdvancesOf(advances[takes[i].advance].employee) in want)
    && (forall i :: 0 <= i < |advances| ==> TakenFrom(takes, i) <= Remaining(advances, taken, i))
  }

  predicate PaidFit(lines: seq<PayLine>, paid: seq<nat>, want: seq<Lock>, items: seq<nat>)
  {
    && NoRepeats(items)
    && (forall i :: 0 <= i < |items| ==> items[i] < |lines| && items[i] !in paid && RunLock(lines[items[i]].run) in want)
  }

  predicate GosiFits(outstanding: int, want: seq<Lock>, owed: seq<int>, paid: seq<int>)
  {
    0 <= SumBy(owed, Same) && (paid != [] ==> Gosi in want && SumBy(paid, Same) <= outstanding)
  }

  predicate RowsFit(use: Account -> Use, p: Books)
  {
    Purposeful(use, p) && (forall i :: 0 <= i < |p.lines| ==> 0 <= p.lines[i].net)
  }

  /** No employee has two salary lines of one run. */
  predicate OneLineEach(lines: seq<PayLine>)
  {
    forall i, j :: 0 <= i < j < |lines| ==> lines[i].run != lines[j].run || lines[i].employee != lines[j].employee
  }

  ghost predicate PlanStands(use: Account -> Use, b: Books, want: seq<Lock>, p: Books)
  {
    && TakesFit(b.advances, b.taken, want, p.taken)
    && PaidFit(b.lines, b.paid, want, p.paid)
    && GosiFits(GosiOutstanding(b), want, p.gosiOwed, p.gosiPaid)
    && RowsFit(use, p) && Tied(use, b, p) && OneLineEach(p.lines)
  }

  // ---- what the books keep ----

  predicate NothingOverdrawn(advances: seq<Advance>, taken: seq<Taken>)
  {
    Known(advances, taken) && forall i :: 0 <= i < |advances| ==> 0 <= Remaining(advances, taken, i)
  }

  predicate PaidOnce(lines: seq<PayLine>, paid: seq<nat>)
  {
    NoRepeats(paid) && forall i :: 0 <= i < |paid| ==> paid[i] < |lines|
  }

  /** The sub-ledgers and their accounts. */
  ghost predicate Ties(use: Account -> Use, b: Books)
  {
    && (forall a :: use(a) == ForAdvances ==> NetDebit(b.ledger, a) == GrantedOn(b.advances, a) - TakesOn(b.advances, b.taken, a))
    && (forall a :: use(a) == ForNetPay ==> NetDebit(b.ledger, a) == PaidOn(b.lines, b.paid, a) - NetOn(b.lines, a))
    && NetDebit(b.ledger, Mapped(GosiPayable)) == 0 - GosiOutstanding(b)
  }

  ghost predicate BooksHold(use: Account -> Use, b: Books)
  {
    && RowsFit(use, b) && NothingOverdrawn(b.advances, b.taken) && PaidOnce(b.lines, b.paid) && 0 <= GosiOutstanding(b)
    && OneLineEach(b.lines) && Sound(b.ledger) && Ties(use, b)
  }

  ghost predicate Exclusive(s: State)
  {
    forall o, l {:trigger Holding(s.sessions[o], l)} :: o in s.sessions && Holding(s.sessions[o], l) ==> Free(s, o, l)
  }

  predicate RisingRanks(want: seq<Lock>)
  {
    forall i, j :: 0 <= i < j < |want| ==> Rank(want[i]) < Rank(want[j])
  }

  ghost predicate SessionHolds(use: Account -> Use, b: Books, x: Session)
  {
    && Respects(use, x.work) && Startable(b, x.work) && x.want == LocksFor(b, x.work) && x.held <= |x.want|
    && (x.plan.Some? ==> x.held == |x.want| && PlanStands(use, b, x.want, x.plan.value))
  }

  ghost predicate Holds(use: Account -> Use, s: State)
  {
    && BooksHold(use, s.books) && Exclusive(s)
    && forall id :: id in s.sessions ==> SessionHolds(use, s.books, s.sessions[id])
  }

  // ---- reading ----

  lemma {:induction false} ComputeTakes(b: Books, run: nat, roster: seq<Employee>)
    requires roster != []
    ensures Compute(b.advances, b.taken, run, roster).takes
         == Compute(b.advances, b.taken, run, roster[..|roster| - 1]).takes + TakesOf(b.advances, b.taken, roster[|roster| - 1].id, |b.advances|)
  {
  }

  lemma {:induction false} NewOnRoster(roster: seq<Employee>)
    requires roster != [] && forall j, k :: 0 <= j < k < |roster| ==> roster[j].id != roster[k].id
    ensures var before, e := roster[..|roster| - 1], roster[|roster| - 1];
      && e.id !in EmployeeIds(before)
      && forall x :: x in EmployeeIds(roster) <==> x in EmployeeIds(before) || x == e.id
  {
    assert EmployeeIds(roster) == EmployeeIds(roster[..|roster| - 1]) + [roster[|roster| - 1].id];
  }

  lemma {:induction false} OnRoster(b: Books, run: nat, roster: seq<Employee>, i: nat)
    requires i < |b.advances|
    requires forall j, k :: 0 <= j < k < |roster| ==> roster[j].id != roster[k].id
    ensures TakenFrom(Compute(b.advances, b.taken, run, roster).takes, i)
         == if b.advances[i].employee in EmployeeIds(roster) then Instalment(b.advances, b.taken, i) else 0
  {
    if roster != [] {
      var before, e := roster[..|roster| - 1], roster[|roster| - 1];
      OnRoster(b, run, before, i);
      NewOnRoster(roster);
      var own := TakesOf(b.advances, b.taken, e.id, |b.advances|);
      TakesOfEach(b.advances, b.taken, e.id, |b.advances|, i);
      ComputeTakes(b, run, roster);
      TakenFromConcat(Compute(b.advances, b.taken, run, before).takes, own, i);
    }
  }

  lemma {:induction false} TakersOnRoster(b: Books, run: nat, roster: seq<Employee>)
    ensures forall t :: t in Compute(b.advances, b.taken, run, roster).takes ==>
      t.advance < |b.advances| && b.advances[t.advance].employee in EmployeeIds(roster)
  {
    if roster != [] {
      var before, e := roster[..|roster| - 1], roster[|roster| - 1];
      TakersOnRoster(b, run, before);
      TakesOfKnown(b.advances, b.taken, e.id, |b.advances|);
      assert EmployeeIds(roster) == EmployeeIds(before) + [e.id];
    }
  }

  lemma {:induction false} LocksCover(ids: seq<nat>)
    ensures forall x :: x in ids ==> AdvancesOf(x) in AdvanceLocks(SortedIds(ids))
    ensures RisingRanks(AdvanceLocks(SortedIds(ids)))
  {
    var sorted := SortedIds(ids);
    SortedIdsRise(ids);
    forall x | x in ids ensures AdvancesOf(x) in AdvanceLocks(sorted) {
      var i :| 0 <= i < |sorted| && sorted[i] == x;
      assert AdvanceLocks(sorted)[i] == AdvancesOf(x);
    }
  }

  /** A payroll takes from each advance no more than is left of it, under its employee's lock. */
  lemma {:induction false} PayrollTakesFit(b: Books, run: nat, roster: seq<Employee>)
    requires NothingOverdrawn(b.advances, b.taken)
    requires forall j, k :: 0 <= j < k < |roster| ==> roster[j].id != roster[k].id
    ensures TakesFit(b.advances, b.taken, AdvanceLocks(SortedIds(EmployeeIds(roster))), Compute(b.advances, b.taken, run, roster).takes)
  {
    var takes := Compute(b.advances, b.taken, run, roster).takes;
    ComputeConsistent(b.advances, b.taken, run, roster);
    TakersOnRoster(b, run, roster);
    LocksCover(EmployeeIds(roster));
    forall i | 0 <= i < |takes| ensures takes[i].advance < |b.advances| && AdvancesOf(b.advances[takes[i].advance].employee) in AdvanceLocks(SortedIds(EmployeeIds(roster))) {
      assert takes[i] in takes;
    }
    forall i | 0 <= i < |b.advances| ensures TakenFrom(takes, i) <= Remaining(b.advances, b.taken, i) {
      OnRoster(b, run, roster, i);
    }
  }

  lemma {:induction false} NoTakesFit(advances: seq<Advance>, taken: seq<Taken>, want: seq<Lock>)
    requires NothingOverdrawn(advances, taken)
    ensures TakesFit(advances, taken, want, [])
  {
  }

  lemma {:induction false} OneTakeFits(b: Books, which: nat, amount: nat)
    requires NothingOverdrawn(b.advances, b.taken) && which < |b.advances| && 0 < amount <= Remaining(b.advances, b.taken, which)
    ensures TakesFit(b.advances, b.taken, [AdvancesOf(b.advances[which].employee)], [Taken(which, amount)])
  {
    forall i | 0 <= i < |b.advances| ensures TakenFrom([Taken(which, amount)], i) <= Remaining(b.advances, b.taken, i) {
      assert [Taken(which, amount)][..0] == [];
    }
  }

  lemma {:induction false} RepayStands(use: Account -> Use, b: Books, w: Work)
    requires w.Repay? && Respects(use, w) && BooksHold(use, b) && PlanOf(b, w).Some? && Tied(use, b, PlanOf(b, w).value)
    ensures PlanStands(use, b, LocksFor(b, w), PlanOf(b, w).value)
  {
    PairPositive(w.cash, b.advances[w.which].account, w.amount);
    OneTakeFits(b, w.which, w.amount);
  }

  lemma {:induction false} PayrollStands(use: Account -> Use, b: Books, w: Work)
    requires w.RunPayroll? && Startable(b, w) && Respects(use, w) && BooksHold(use, b)
    requires PlanOf(b, w).Some? && Tied(use, b, PlanOf(b, w).value)
    ensures PlanStands(use, b, LocksFor(b, w), PlanOf(b, w).value)
  {
    PayrollTakesFit(b, w.run, w.roster);
    PayrollRowsFit(use, b, w.run, w.roster);
    LinesPurposeful(b.advances, b.taken, w.run, w.roster);
  }

  lemma {:induction false} PlanStandsOnReading(use: Account -> Use, b: Books, w: Work)
    requires Separate(use) && Respects(use, w) && BooksHold(use, b) && Startable(b, w) && PlanOf(b, w).Some?
    ensures PlanStands(use, b, LocksFor(b, w), PlanOf(b, w).value)
  {
    PlanTied(use, b, w);
    match w
    case Grant(_, _, _) => NoTakesFit(b.advances, b.taken, []);
    case Repay(_, _, _, _) => RepayStands(use, b, w);
    case RunPayroll(_, _, _) => PayrollStands(use, b, w);
    case PayGosi(amount, _, _) =>
      NoTakesFit(b.advances, b.taken, [Gosi]);
      OneOwed(amount);
    case PaySalaries(run, who, _, _) =>
      NoTakesFit(b.advances, b.taken, [RunLock(run)]);
      SalariesFit(b, run, who);
  }

  lemma {:induction false} PairPositive(debit: Account, credit: Account, amount: int)
    requires ValidShape(Pair(debit, credit, amount))
    ensures 0 < amount
  {
    assert OneSided(Pair(debit, credit, amount)[0]);
  }

  lemma {:induction false} PayrollRowsFit(use: Account -> Use, b: Books, run: nat, roster: seq<Employee>)
    requires forall i :: 0 <= i < |roster| ==> use(roster[i].account) == ForNetPay
    ensures var f := Compute(b.advances, b.taken, run, roster);
      && (forall i :: 0 <= i < |f.lines| ==> use(f.lines[i].account) == ForNetPay)
      && 0 <= f.employeeShares + f.employerShares == SumBy([f.employeeShares + f.employerShares], Same)
  {
    LinesPurposeful(b.advances, b.taken, run, roster);
    ComputeConsistent(b.advances, b.taken, run, roster);
    OneOwed(Compute(b.advances, b.taken, run, roster).employeeShares + Compute(b.advances, b.taken, run, roster).employerShares);
  }

  lemma {:induction false} SalariesFit(b: Books, run: nat, who: Option<set<nat>>)
    ensures PaidFit(b.lines, b.paid, [RunLock(run)], Unpaid(b, run, who, |b.lines|))
  {
    UnpaidLines(b, run, who, |b.lines|);
    var items := Unpaid(b, run, who, |b.lines|);
    assert forall i :: 0 <= i < |items| ==> items[i] in items;
  }

  // ---- committing ----

  predicate Disjoint(a: seq<Lock>, b: seq<Lock>)
  {
    forall l :: l in a ==> l !in b
  }

  lemma {:induction false} UntakenIsZero(takes: seq<Taken>, i: nat)
    requires forall k :: 0 <= k < |takes| ==> takes[k].advance != i
    ensures TakenFrom(takes, i) == 0
  {
    if takes != [] {
      UntakenIsZero(takes[..|takes| - 1], i);
    }
  }

  lemma {:induction false} KnownGrows(advances: seq<Advance>, more: seq<Advance>, takes: seq<Taken>)
    requires Known(advances, takes)
    ensures Known(advances + more, takes)
    ensures forall a :: TakesOn(advances + more, takes, a) == TakesOn(advances, takes, a)
    ensures forall i :: |advances| <= i ==> TakenFrom(takes, i) == 0
  {
    forall a ensures TakesOn(advances + more, takes, a) == TakesOn(advances, takes, a) {
      TakesOnGrows(advances, more, takes, a);
    }
    forall i | |advances| <= i ensures TakenFrom(takes, i) == 0 {
      UntakenIsZero(takes, i);
    }
  }

  lemma {:induction false} TakesOnGrows(advances: seq<Advance>, more: seq<Advance>, takes: seq<Taken>, a: Account)
    requires Known(advances, takes)
    ensures TakesOn(advances + more, takes, a) == TakesOn(advances, takes, a)
  {
    if takes != [] {
      TakesOnGrows(advances, more, takes[..|takes| - 1], a);
    }
  }

  lemma {:induction false} PaidOnGrows(lines: seq<PayLine>, more: seq<PayLine>, items: seq<nat>, a: Account)
    requires forall i :: 0 <= i < |items| ==> items[i] < |lines|
    ensures PaidOn(lines + more, items, a) == PaidOn(lines, items, a)
  {
    if items != [] {
      PaidOnGrows(lines, more, items[..|items| - 1], a);
    }
  }

  lemma {:induction false} PaidOnConcat(lines: seq<PayLine>, s: seq<nat>, t: seq<nat>, a: Account)
    ensures PaidOn(lines, s + t, a) == PaidOn(lines, s, a) + PaidOn(lines, t, a)
  {
    if t == [] {
      assert s + t == s;
    } else {
      assert (s + t)[..|s + t| - 1] == s + t[..|t| - 1];
      PaidOnConcat(lines, s, t[..|t| - 1], a);
    }
  }

  lemma {:induction false} GrantedOnConcat(s: seq<Advance>, t: seq<Advance>, a: Account)
    ensures GrantedOn(s + t, a) == GrantedOn(s, a) + GrantedOn(t, a)
  {
    if t == [] {
      assert s + t == s;
    } else {
      assert (s + t)[..|s + t| - 1] == s + t[..|t| - 1];
      GrantedOnConcat(s, t[..|t| - 1], a);
    }
  }

  /** Taking no more than is left leaves nothing overdrawn. */
  lemma {:induction false} TakesKeep(b: Books, p: Books, want: seq<Lock>)
    requires NothingOverdrawn(b.advances, b.taken) && TakesFit(b.advances, b.taken, want, p.taken)
    ensures NothingOverdrawn(b.advances + p.advances, b.taken + p.taken)
  {
    KnownGrows(b.advances, p.advances, b.taken);
    KnownGrows(b.advances, p.advances, p.taken);
    JoinKnown(b.advances + p.advances, b.taken, p.taken);
    forall i | 0 <= i < |b.advances + p.advances| ensures 0 <= Remaining(b.advances + p.advances, b.taken + p.taken, i) {
      TakenFromConcat(b.taken, p.taken, i);
    }
  }

  /** What another session may still take is not touched by a commit under other locks. */
  lemma {:induction false} TakesStillFit(b: Books, p: Books, want: seq<Lock>, other: seq<Lock>, takes: seq<Taken>)
    requires NothingOverdrawn(b.advances, b.taken)
    requires TakesFit(b.advances, b.taken, want, p.taken) && TakesFit(b.advances, b.taken, other, takes) && Disjoint(want, other)
    ensures TakesFit(b.advances + p.advances, b.taken + p.taken, other, takes)
  {
    TakesKeep(b, p, want);
    KnownGrows(b.advances, p.advances, takes);
    forall i | 0 <= i < |b.advances + p.advances| ensures TakenFrom(takes, i) <= Remaining(b.advances + p.advances, b.taken + p.taken, i) {
      if i < |b.advances| && TakenFrom(takes, i) > 0 {
        TouchedIsLocked(b.advances, other, takes, i);
        UntouchedBy(b.advances, want, p.taken, i);
        TakenFromConcat(b.taken, p.taken, i);
      }
    }
  }

  lemma {:induction false} TouchedIsLocked(advances: seq<Advance>, want: seq<Lock>, takes: seq<Taken>, i: nat)
    requires i < |advances| && 0 < TakenFrom(takes, i)
    requires forall k :: 0 <= k < |takes| ==> takes[k].advance < |advances| && AdvancesOf(advances[takes[k].advance].employee) in want
    ensures AdvancesOf(advances[i].employee) in want
  {
    if forall k :: 0 <= k < |takes| ==> takes[k].advance != i {
      UntakenIsZero(takes, i);
    }
  }

  lemma {:induction false} UntouchedBy(advances: seq<Advance>, want: seq<Lock>, takes: seq<Taken>, i: nat)
    requires i < |advances| && AdvancesOf(advances[i].employee) !in want
    requires forall k :: 0 <= k < |takes| ==> takes[k].advance < |advances| && AdvancesOf(advances[takes[k].advance].employee) in want
    ensures TakenFrom(takes, i) == 0
  {
    UntakenIsZero(takes, i);
  }

  lemma {:induction false} PaidKeep(b: Books, p: Books, want: seq<Lock>)
    requires PaidOnce(b.lines, b.paid) && PaidFit(b.lines, b.paid, want, p.paid)
    ensures PaidOnce(b.lines + p.lines, b.paid + p.paid)
  {
  }

  lemma {:induction false} PaidStillFit(b: Books, p: Books, want: seq<Lock>, other: seq<Lock>, items: seq<nat>)
    requires PaidFit(b.lines, b.paid, want, p.paid) && PaidFit(b.lines, b.paid, other, items) && Disjoint(want, other)
    ensures PaidFit(b.lines + p.lines, b.paid + p.paid, other, items)
  {
  }

  lemma {:induction false} GosiAfter(b: Books, p: Books)
    ensures GosiOutstanding(Applied(b, p)) == GosiOutstanding(b) + SumBy(p.gosiOwed, Same) - SumBy(p.gosiPaid, Same)
  {
    SumByConcat(b.gosiOwed, p.gosiOwed, Same);
    SumByConcat(b.gosiPaid, p.gosiPaid, Same);
  }

  lemma {:induction false} OneEntry(b: Books, p: Books, a: Account)
    requires |p.ledger| == 1
    ensures NetDebit(b.ledger + p.ledger, a) == NetDebit(b.ledger, a) + Net(p.ledger[0].lines, a)
  {
    NetUpToSnoc(b.ledger, p.ledger[0], a, FAR_FUTURE);
    assert [p.ledger[0]] == p.ledger;
  }

  /** A tied plan keeps the sub-ledgers equal to their accounts. */
  lemma {:induction false} AdvancesTie(use: Account -> Use, b: Books, p: Books, a: Account)
    requires Ties(use, b) && Tied(use, b, p) && Known(b.advances, b.taken) && use(a) == ForAdvances
    ensures NetDebit(b.ledger + p.ledger, a) == GrantedOn(b.advances + p.advances, a) - TakesOn(b.advances + p.advances, b.taken + p.taken, a)
  {
    OneEntry(b, p, a);
    GrantedOnConcat(b.advances, p.advances, a);
    TakesOnConcat(b.advances + p.advances, b.taken, p.taken, a);
    TakesOnGrows(b.advances, p.advances, b.taken, a);
    TakesOnGrows(b.advances, p.advances, p.taken, a);
  }

  lemma {:induction false} NetPayTies(use: Account -> Use, b: Books, p: Books, a: Account)
    requires Ties(use, b) && Tied(use, b, p) && PaidOnce(b.lines, b.paid) && use(a) == ForNetPay
    ensures NetDebit(b.ledger + p.ledger, a) == PaidOn(b.lines + p.lines, b.paid + p.paid, a) - NetOn(b.lines + p.lines, a)
  {
    OneEntry(b, p, a);
    NetOnConcat(b.lines, p.lines, a);
    PaidOnConcat(b.lines + p.lines, b.paid, p.paid, a);
    PaidOnGrows(b.lines, p.lines, b.paid, a);
    PaidOnGrows(b.lines, p.lines, p.paid, a);
  }

  lemma {:induction false} TiesKept(use: Account -> Use, b: Books, p: Books)
    requires Ties(use, b) && Tied(use, b, p) && Known(b.advances, b.taken) && PaidOnce(b.lines, b.paid)
    ensures Ties(use, Applied(b, p))
  {
    forall a | use(a) == ForAdvances
      ensures NetDebit(b.ledger + p.ledger, a) == GrantedOn(b.advances + p.advances, a) - TakesOn(b.advances + p.advances, b.taken + p.taken, a)
    {
      AdvancesTie(use, b, p, a);
    }
    forall a | use(a) == ForNetPay
      ensures NetDebit(b.ledger + p.ledger, a) == PaidOn(b.lines + p.lines, b.paid + p.paid, a) - NetOn(b.lines + p.lines, a)
    {
      NetPayTies(use, b, p, a);
    }
    OneEntry(b, p, Mapped(GosiPayable));
    GosiAfter(b, p);
  }

  lemma {:induction false} RowsKeep(use: Account -> Use, b: Books, p: Books)
    requires RowsFit(use, b) && RowsFit(use, p)
    ensures RowsFit(use, Applied(b, p))
  {
  }

  lemma {:induction false} OneLineKept(b: Books, p: Books)
    requires OneLineEach(b.lines) && OneLineEach(p.lines) && !Clashes(b, p)
    ensures OneLineEach(b.lines + p.lines)
  {
    forall i, j | 0 <= i < |b.lines| && 0 <= j < |p.lines| ensures b.lines[i].run != p.lines[j].run {
      assert !HasRun(b.lines, p.lines[j].run);
    }
  }

  lemma {:induction false} CommitKeepsBooks(use: Account -> Use, b: Books, want: seq<Lock>, p: Books)
    requires BooksHold(use, b) && PlanStands(use, b, want, p) && !Clashes(b, p)
    ensures BooksHold(use, Applied(b, p))
  {
    RowsKeep(use, b, p);
    TakesKeep(b, p, want);
    PaidKeep(b, p, want);
    GosiAfter(b, p);
    TiesKept(use, b, p);
    OneLineKept(b, p);
  }

  /** A plan that has just been read clashes with nothing. */
  lemma {:induction false} JustRead(b: Books, w: Work)
    requires PlanOf(b, w).Some?
    ensures !Clashes(b, PlanOf(b, w).value)
  {
    if w.RunPayroll? {
      LinesPurposeful(b.advances, b.taken, w.run, w.roster);
    }
  }

  lemma {:induction false} StillTied(use: Account -> Use, b: Books, p: Books, q: Books)
    requires Tied(use, b, q)
    ensures Tied(use, Applied(b, p), q)
  {
    KnownGrows(b.advances, p.advances, q.taken);
    forall a ensures PaidOn(b.lines + p.lines, q.paid, a) == PaidOn(b.lines, q.paid, a) {
      PaidOnGrows(b.lines, p.lines, q.paid, a);
    }
  }

  /** A commit under disjoint locks leaves another plan standing. */
  lemma {:induction false} PlanStillStands(use: Account -> Use, b: Books, want: seq<Lock>, p: Books, other: seq<Lock>, q: Books)
    requires BooksHold(use, b) && PlanStands(use, b, want, p) && PlanStands(use, b, other, q) && Disjoint(want, other)
    ensures PlanStands(use, Applied(b, p), other, q)
  {
    TakesStillFit(b, p, want, other, q.taken);
    PaidStillFit(b, p, want, other, q.paid);
    GosiAfter(b, p);
    StillTied(use, b, p, q);
  }

  lemma {:induction false} SameLocks(b: Books, p: Books, w: Work)
    requires Startable(b, w)
    ensures Startable(Applied(b, p), w) && LocksFor(Applied(b, p), w) == LocksFor(b, w)
  {
  }

  lemma {:induction false} HeldApart(s: State, a: nat, o: nat)
    requires Exclusive(s) && a in s.sessions && o in s.sessions && a != o
    requires s.sessions[a].held == |s.sessions[a].want| && s.sessions[o].held == |s.sessions[o].want|
    ensures Disjoint(s.sessions[a].want, s.sessions[o].want)
  {
    var x, y := s.sessions[a], s.sessions[o];
    forall l | l in x.want ensures l !in y.want {
      var i :| 0 <= i < |x.want| && x.want[i] == l;
      assert Holding(x, l);
      assert Free(s, a, l);
      assert !Holding(y, l);
    }
  }

  lemma {:induction false} CommitSpares(use: Account -> Use, s: State, id: nat, o: nat)
    requires Holds(use, s) && id in s.sessions && s.sessions[id].plan.Some? && o in s.sessions && o != id
    ensures SessionHolds(use, Applied(s.books, s.sessions[id].plan.value), s.sessions[o])
  {
    var x, y := s.sessions[id], s.sessions[o];
    assert SessionHolds(use, s.books, x) && SessionHolds(use, s.books, y);
    SameLocks(s.books, x.plan.value, y.work);
    if y.plan.Some? {
      HeldApart(s, id, o);
      PlanStillStands(use, s.books, x.want, x.plan.value, y.want, y.plan.value);
    }
  }

  // ---- stepping ----

  lemma {:induction false} EndedExclusive(s: State, id: nat, b: Books)
    requires Exclusive(s)
    ensures Exclusive(State(b, s.sessions - {id}))
  {
    var t := State(b, s.sessions - {id});
    forall o, l | o in t.sessions && Holding(t.sessions[o], l) ensures Free(t, o, l) {
      assert Holding(s.sessions[o], l) && Free(s, o, l);
    }
  }

  lemma {:induction false} EndKeeps(use: Account -> Use, s: State, id: nat)
    requires Holds(use, s)
    ensures Holds(use, Ended(s, id))
  {
    EndedExclusive(s, id, s.books);
  }

  lemma {:induction false} CommitKeeps(use: Account -> Use, s: State, id: nat)
    requires Holds(use, s) && id in s.sessions && s.sessions[id].plan.Some? && !Clashes(s.books, s.sessions[id].plan.value)
    ensures Holds(use, State(Applied(s.books, s.sessions[id].plan.value), s.sessions - {id}))
  {
    var x := s.sessions[id];
    var t := State(Applied(s.books, x.plan.value), s.sessions - {id});
    assert SessionHolds(use, s.books, x);
    CommitKeepsBooks(use, s.books, x.want, x.plan.value);
    EndedExclusive(s, id, t.books);
    forall o | o in t.sessions ensures SessionHolds(use, t.books, t.sessions[o]) {
      CommitSpares(use, s, id, o);
    }
  }

  ghost predicate AllFree(s: State, id: nat, x: Session)
  {
    forall l {:trigger Holding(x, l)} :: Holding(x, l) ==> Free(s, id, l)
  }

  /** A session that moves on, holding what it held or one free lock more. */
  lemma {:induction false} WithExclusive(s: State, id: nat, x: Session)
    requires Exclusive(s) && AllFree(s, id, x)
    ensures Exclusive(With(s, id, x))
  {
    var t := With(s, id, x);
    forall o, l | o in t.sessions && Holding(t.sessions[o], l) ensures Free(t, o, l) {
      if o == id {
        assert Free(s, id, l);
      } else {
        assert Holding(s.sessions[o], l) && Free(s, o, l);
        assert Holding(x, l) ==> Free(s, id, l);
      }
    }
  }

  lemma {:induction false} WithKeeps(use: Account -> Use, s: State, id: nat, x: Session)
    requires Holds(use, s) && SessionHolds(use, s.books, x)
    requires AllFree(s, id, x)
    ensures Holds(use, With(s, id, x))
  {
    WithExclusive(s, id, x);
  }

  lemma {:induction false} OneMoreLock(x: Session, l: Lock)
    requires x.held < |x.want| && Holding(x.(held := x.held + 1), l)
    ensures Holding(x, l) || l == x.want[x.held]
  {
    var i :| 0 <= i < x.held + 1 && x.want[i] == l;
    assert i < x.held ==> Holding(x, l);
  }

  lemma {:induction false} MoreHeld(use: Account -> Use, b: Books, x: Session)
    requires SessionHolds(use, b, x) && x.held < |x.want|
    ensures SessionHolds(use, b, x.(held := x.held + 1))
  {
  }

  lemma {:induction false} OneMoreIsFree(s: State, id: nat)
    requires Exclusive(s) && id in s.sessions && s.sessions[id].held < |s.sessions[id].want|
    requires Free(s, id, s.sessions[id].want[s.sessions[id].held])
    ensures AllFree(s, id, s.sessions[id].(held := s.sessions[id].held + 1))
  {
    var x := s.sessions[id];
    var y := x.(held := x.held + 1);
    forall l {:trigger Holding(y, l)} | Holding(y, l) ensures Free(s, id, l) {
      OneMoreLock(x, l);
      assert Holding(x, l) ==> Free(s, id, l);
    }
  }

  lemma {:induction false} AcquireKeeps(use: Account -> Use, s: State, id: nat)
    requires Holds(use, s) && id in s.sessions && s.sessions[id].held < |s.sessions[id].want|
    requires Free(s, id, s.sessions[id].want[s.sessions[id].held])
    ensures Holds(use, With(s, id, s.sessions[id].(held := s.sessions[id].held + 1)))
  {
    OneMoreIsFree(s, id);
    MoreHeld(use, s.books, s.sessions[id]);
    WithKeeps(use, s, id, s.sessions[id].(held := s.sessions[id].held + 1));
  }

  lemma {:induction false} ReadKeeps(use: Account -> Use, s: State, id: nat)
    requires Separate(use) && Holds(use, s) && id in s.sessions
    ensures Holds(use, Next(s, Read(id)))
  {
    var x := s.sessions[id];
    assert SessionHolds(use, s.books, x);
    EndKeeps(use, s, id);
    if x.held == |x.want| && x.plan.None? && PlanOf(s.books, x.work).Some? {
      PlanStandsOnReading(use, s.books, x.work);
      var y := x.(plan := PlanOf(s.books, x.work));
      forall l {:trigger Holding(y, l)} | Holding(y, l) ensures Free(s, id, l) {
        assert Holding(x, l);
      }
      WithKeeps(use, s, id, y);
    }
  }

  lemma {:induction false} BeginKeeps(use: Account -> Use, s: State, id: nat, w: Work)
    requires Holds(use, s) && Respects(use, w) && Startable(s.books, w)
    ensures Holds(use, With(s, id, Session(w, LocksFor(s.books, w), 0, None)))
  {
    WithKeeps(use, s, id, Session(w, LocksFor(s.books, w), 0, None));
  }

  lemma {:induction false} LockingKeeps(use: Account -> Use, s: State, e: Event)
    requires Holds(use, s) && (e.Acquire? || e.Begin?) && (e.Begin? ==> Respects(use, e.work))
    ensures Holds(use, Next(s, e))
  {
    if Next(s, e) != s {
      if e.Begin? {
        BeginKeeps(use, s, e.id, e.work);
      } else {
        AcquireKeeps(use, s, e.id);
      }
    }
  }

  lemma {:induction false} EndingKeeps(use: Account -> Use, s: State, e: Event)
    requires Holds(use, s) && (e.Commit? || e.Abort?)
    ensures Holds(use, Next(s, e))
  {
    EndKeeps(use, s, e.id);
    if e.Commit? && e.id in s.sessions {
      var p := s.sessions[e.id].plan;
      if p.Some? && !Clashes(s.books, p.value) {
        CommitKeeps(use, s, e.id);
      }
    }
  }

  lemma {:induction false} NextKeeps(use: Account -> Use, s: State, e: Event)
    requires Separate(use) && Holds(use, s) && (e.Begin? ==> Respects(use, e.work))
    ensures Holds(use, Next(s, e))
  {
    if Next(s, e) != s {
      match e
      case Begin(_, _) => LockingKeeps(use, s, e);
      case Acquire(_) => LockingKeeps(use, s, e);
      case Read(id) => ReadKeeps(use, s, id);
      case Commit(_) => EndingKeeps(use, s, e);
      case Abort(_) => EndingKeeps(use, s, e);
    }
  }

  /** In every interleaving: no advance is overdrawn, each employee has one line in a run, paid at most once, no more
      contributions are remitted than owed, and each receivable, salary and contribution account is its sub-ledger. */
  lemma {:induction false} InEveryInterleaving(use: Account -> Use, events: seq<Event>)
    requires Separate(use) && Named(use, events)
    ensures Holds(use, Run(events))
  {
    if events != [] {
      InEveryInterleaving(use, events[..|events| - 1]);
      NextKeeps(use, Run(events[..|events| - 1]), events[|events| - 1]);
    }
  }

  /** In particular a receivable account's balance is what the advances granted on it still owe, and the
      contributions payable what is owed less what was remitted, never negative. */
  lemma {:induction false} SubLedgersTie(use: Account -> Use, events: seq<Event>, a: Account)
    requires Separate(use) && Named(use, events)
    ensures var b := Run(events).books;
      && (use(a) == ForAdvances ==> NetDebit(b.ledger, a) == RemainingOn(b.advances, b.taken, a, |b.advances|))
      && 0 <= GosiOutstanding(b) == 0 - NetDebit(b.ledger, Mapped(GosiPayable))
      && (forall i :: 0 <= i < |b.advances| ==> 0 <= Remaining(b.advances, b.taken, i))
  {
    InEveryInterleaving(use, events);
    RemainingIsGrantedLessTaken(Run(events).books.advances, Run(events).books.taken, a);
  }

  // ---- no deadlock ----

  /** A session that has its locks, or can take the next one. */
  predicate CanStep(s: State, id: nat)
    requires id in s.sessions
  {
    var x := s.sessions[id];
    x.held >= |x.want| || Free(s, id, x.want[x.held])
  }

  function WaitingRank(x: Session): nat { if x.held < |x.want| then Rank(x.want[x.held]) else 0 }

  lemma {:induction false} LocksRise(b: Books, w: Work)
    ensures RisingRanks(LocksFor(b, w))
  {
    if w.RunPayroll? {
      LocksCover(EmployeeIds(w.roster));
    }
  }

  /** Following who holds what one waits for only climbs, so it ends at a session that can step. */
  lemma {:induction false} FollowHolders(use: Account -> Use, s: State, id: nat, bound: nat) returns (mover: nat)
    requires Holds(use, s) && id in s.sessions
    requires forall o :: o in s.sessions ==> WaitingRank(s.sessions[o]) < bound
    ensures mover in s.sessions && CanStep(s, mover)
    decreases bound - WaitingRank(s.sessions[id])
  {
    mover := id;
    if !CanStep(s, id) {
      var l := s.sessions[id].want[s.sessions[id].held];
      var o :| o in s.sessions && o != id && Holding(s.sessions[o], l);
      if CanStep(s, o) {
        mover := o;
      } else {
        var y := s.sessions[o];
        assert SessionHolds(use, s.books, y);
        LocksRise(s.books, y.work);
        var i :| 0 <= i < y.held && y.want[i] == l;
        assert Rank(y.want[i]) < Rank(y.want[y.held]);
        mover := FollowHolders(use, s, o, bound);
      }
    }
  }

  lemma {:induction false} RanksBounded(sessions: map<nat, Session>) returns (bound: nat)
    ensures forall o :: o in sessions ==> WaitingRank(sessions[o]) < bound
    decreases |sessions|
  {
    bound := 0;
    if id :| id in sessions {
      var rest := RanksBounded(sessions - {id});
      var own := WaitingRank(sessions[id]);
      bound := if rest <= own then own + 1 else rest;
      forall o | o in sessions ensures WaitingRank(sessions[o]) < bound {
        assert o != id ==> o in sessions - {id} && (sessions - {id})[o] == sessions[o];
      }
    }
  }

  /** Sorted locks cannot deadlock: as long as a session is open, one can step. */
  lemma {:induction false} NoDeadlock(use: Account -> Use, events: seq<Event>)
    requires Separate(use) && Named(use, events) && Run(events).sessions != map[]
    ensures exists id :: id in Run(events).sessions && CanStep(Run(events), id)
  {
    var s := Run(events);
    InEveryInterleaving(use, events);
    var bound := RanksBounded(s.sessions);
    var id :| id in s.sessions;
    var mover := FollowHolders(use, s, id, bound);
  }
}
