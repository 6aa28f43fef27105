/** The posting engine: idempotent posting into open periods on postable accounts, and reversal. */
module Engine {
  import opened Wrappers
  import opened Journal

  datatype Key = Request(id: nat) | Reversal(entry: nat, nonce: nat)

  datatype Posted = Posted(key: Key, period: nat, date: Day, lines: seq<Line>, reversalOf: Option<nat>)

  datatype FiscalPeriod = FiscalPeriod(from: Day, to: Day, open: bool)

  datatype AccountFlags = AccountFlags(postable: bool, active: bool)

  /** What the engine looks up: fiscal periods by position, and the chart of accounts. */
  datatype Setting = Setting(periods: seq<FiscalPeriod>, accounts: map<Account, AccountFlags>)

  datatype Command = Command(key: Key, period: nat, date: Day, lines: seq<Line>)

  datatype Error = BadShape | PeriodNotFound | PeriodClosed | AccountNotFound | AccountNotPostable | EntryNotFound | NoOpenPeriod | KeyTaken

  /** The position of the entry posted under a key, or the number of entries. */
  function FindKey(entries: seq<Posted>, key: Key): (i: nat)
    ensures i <= |entries| && (i < |entries| ==> entries[i].key == key)
    ensures i == |entries| ==> forall j :: 0 <= j < |entries| ==> entries[j].key != key
  {
    if entries == [] then 0
    else
      var before := entries[..|entries| - 1];
      var i := FindKey(before, key);
      if i < |before| then i else if entries[|entries| - 1].key == key then i else i + 1
  }

  function CheckLine(s: Setting): ((), Line) -> Result<(), Error>
  {
    (u: (), l: Line) =>
      if l.account !in s.accounts then Failure(AccountNotFound)
      else if !s.accounts[l.account].postable || !s.accounts[l.account].active then Failure(AccountNotPostable)
      else Success(())
  }

  /** What postEntry leaves, and the entry it answers with. */
  function Post(s: Setting, entries: seq<Posted>, c: Command): Result<(seq<Posted>, nat), Error>
  {
    if !ValidShape(c.lines) then Failure(BadShape)
    else if FindKey(entries, c.key) < |entries| then Success((entries, FindKey(entries, c.key)))
    else if |s.periods| <= c.period then Failure(PeriodNotFound)
    else if !s.periods[c.period].open then Failure(PeriodClosed)
    else
      var _ :- Fold((), c.lines, CheckLine(s));
      Success((entries + [Posted(c.key, c.period, c.date, c.lines, None)], |entries|))
  }

  /** The account is there, takes postings and is in use. */
  predicate Takes(s: Setting, a: Account)
  {
    a in s.accounts && s.accounts[a].postable && s.accounts[a].active
  }

  predicate AllTake(s: Setting, lines: seq<Line>)
  {
    forall i :: 0 <= i < |lines| ==> Takes(s, lines[i].account)
  }

  /** The period is there and open, and every line's account can be posted to. */
  predicate Postable(s: Setting, c: Command)
  {
    c.period < |s.periods| && s.periods[c.period].open && AllTake(s, c.lines)
  }

  predicate KeyPosted(entries: seq<Posted>, key: Key)
  {
    exists i :: 0 <= i < |entries| && entries[i].key == key
  }

  lemma {:induction false} LinesChecked(s: Setting, lines: seq<Line>)
    ensures Fold((), lines, CheckLine(s)).Success? <==> AllTake(s, lines)
  {
    if lines != [] {
      var before, l := lines[..|lines| - 1], lines[|lines| - 1];
      LinesChecked(s, before);
      assert Fold((), lines, CheckLine(s)).Success? <==> Fold((), before, CheckLine(s)).Success? && Takes(s, l.account);
      LastTakes(s, lines);
    }
  }

  lemma {:induction false} LastTakes(s: Setting, lines: seq<Line>)
    requires lines != []
    ensures AllTake(s, lines) <==> AllTake(s, lines[..|lines| - 1]) && Takes(s, lines[|lines| - 1].account)
  {
    var before := lines[..|lines| - 1];
    if AllTake(s, before) && Takes(s, lines[|lines| - 1].account) {
      assert forall i :: 0 <= i < |before| ==> lines[i] == before[i];
    }
    if AllTake(s, lines) {
      assert forall i :: 0 <= i < |before| ==> before[i] == lines[i];
    }
  }

  /** An entry is appended exactly when its shape is valid, its key is new, its period is open and its accounts can be
      posted to, and it is the command's; a key already posted answers with its entry; anything else is refused. */
  lemma {:induction false} PostAppends(s: Setting, entries: seq<Posted>, c: Command)
    ensures var r := Post(s, entries, c);
      && (r.Success? <==> ValidShape(c.lines) && (KeyPosted(entries, c.key) || Postable(s, c)))
      && (r.Success? && KeyPosted(entries, c.key) ==> r.value.0 == entries && r.value.1 < |entries| && entries[r.value.1].key == c.key)
      && (r.Success? && !KeyPosted(entries, c.key) ==>
            r.value.0 == entries + [Posted(c.key, c.period, c.date, c.lines, None)] && r.value.1 == |entries|)
  {
    LinesChecked(s, c.lines);
    assert KeyPosted(entries, c.key) <==> FindKey(entries, c.key) < |entries|;
  }

  /** The first open period around a day, or the number of periods. */
  function OpenPeriod(periods: seq<FiscalPeriod>, day: Day): (i: nat)
    ensures i <= |periods|
    ensures i < |periods| ==> periods[i].open && periods[i].from <= day <= periods[i].to
    ensures i == |periods| ==> forall j :: 0 <= j < |periods| ==> !(periods[j].open && periods[j].from <= day <= periods[j].to)
  {
    if periods == [] then 0
    else
      var before, p := periods[..|periods| - 1], periods[|periods| - 1];
      var i := OpenPeriod(before, day);
      if i < |before| || (p.open && p.from <= day <= p.to) then i else i + 1
  }

  /** reverseEntry: dated today, whatever has become of the accounts and of the original's period. */
  function Reverse(s: Setting, entries: seq<Posted>, entry: nat, today: Day, nonce: nat): Result<(seq<Posted>, nat), Error>
  {
    if |entries| <= entry then Failure(EntryNotFound)
    else if OpenPeriod(s.periods, today) == |s.periods| then Failure(NoOpenPeriod)
    else if FindKey(entries, Reversal(entry, nonce)) < |entries| then Failure(KeyTaken)
    else
      Success((entries + [Posted(Reversal(entry, nonce), OpenPeriod(s.periods, today), today, MirrorLines(entries[entry].lines), Some(entry))],
               |entries|))
  }

  /** A reversal is accepted exactly when the entry is there, some open period is around today and the key is new; it is the
      entry's lines with their sides swapped, dated today in such a period. */
  lemma {:induction false} ReverseAppends(s: Setting, entries: seq<Posted>, entry: nat, today: Day, nonce: nat)
    ensures var r := Reverse(s, entries, entry, today, nonce);
      && (r.Success? <==>
            && entry < |entries| && !KeyPosted(entries, Reversal(entry, nonce))
            && exists i :: 0 <= i < |s.periods| && s.periods[i].open && s.periods[i].from <= today <= s.periods[i].to)
      && (r.Success? ==>
            && |r.value.0| == |entries| + 1 && r.value.0[..|entries|] == entries && r.value.1 == |entries|
            && var e := r.value.0[|entries|];
               && e.key == Reversal(entry, nonce) && e.date == today && e.reversalOf == Some(entry)
               && e.period < |s.periods| && s.periods[e.period].open && s.periods[e.period].from <= today <= s.periods[e.period].to
               && |e.lines| == |entries[entry].lines|
               && forall i :: 0 <= i < |e.lines| ==>
                    e.lines[i] == Line(entries[entry].lines[i].account, entries[entry].lines[i].credit, entries[entry].lines[i].debit))
  {
    assert KeyPosted(entries, Reversal(entry, nonce)) <==> FindKey(entries, Reversal(entry, nonce)) < |entries|;
  }

  class AccountingEngine {
    var entries: seq<Posted>

    constructor ()
      ensures entries == []
    {
      entries := [];
    }

    method PostEntry(s: Setting, c: Command) returns (r: Result<nat, Error>)
      modifies this
      ensures r.Success? ==> Post(s, old(entries), c) == Success((entries, r.value))
      ensures r.Failure? ==> entries == old(entries) && Post(s, entries, c) == Failure(r.error)
      ensures entries != old(entries) <==> ValidShape(c.lines) && !KeyPosted(old(entries), c.key) && Postable(s, c)
      ensures entries != old(entries) ==> entries == old(entries) + [Posted(c.key, c.period, c.date, c.lines, None)]
    {
      PostAppends(s, entries, c);
      var shape := ValidateShape(c.lines);
      if shape.Fail? {
        return Failure(BadShape);
      }
      var existing := FindKey(entries, c.key);
      if existing < |entries| {
        return Success(existing);
      }
      if |s.periods| <= c.period {
        return Failure(PeriodNotFound);
      }
      if !s.periods[c.period].open {
        return Failure(PeriodClosed);
      }
      for i := 0 to |c.lines|
        invariant entries == old(entries)
        invariant Fold((), c.lines[..i], CheckLine(s)) == Success(())
      {
        FoldStep((), c.lines, i, CheckLine(s));
        var a := c.lines[i].account;
        if a !in s.accounts {
          FoldRefused((), c.lines, i + 1, CheckLine(s));
          return Failure(AccountNotFound);
        }
        if !s.accounts[a].postable || !s.accounts[a].active {
          FoldRefused((), c.lines, i + 1, CheckLine(s));
          return Failure(AccountNotPostable);
        }
      }
      assert c.lines[..|c.lines|] == c.lines;
      entries := entries + [Posted(c.key, c.period, c.date, c.lines, None)];
      return Success(|entries| - 1);
    }

    method ReverseEntry(s: Setting, entry: nat, today: Day, nonce: nat) returns (r: Result<nat, Error>)
      modifies this
      ensures r.Success? ==> Reverse(s, old(entries), entry, today, nonce) == Success((entries, r.value))
      ensures r.Failure? ==> entries == old(entries) && Reverse(s, entries, entry, today, nonce) == Failure(r.error)
    {
      if |entries| <= entry {
        return Failure(EntryNotFound);
      }
      var period := OpenPeriod(s.periods, today);
      if period == |s.periods| {
        return Failure(NoOpenPeriod);
      }
      if FindKey(entries, Reversal(entry, nonce)) < |entries| {
        return Failure(KeyTaken);
      }
      var lines := entries[entry].lines;
      var mirrored: seq<Line> := [];
      for i := 0 to |lines|
        invariant entries == old(entries)
        invariant mirrored == MirrorLines(lines[..i])
      {
        assert lines[..i + 1][..i] == lines[..i];
        mirrored := mirrored + [Line(lines[i].account, lines[i].credit, lines[i].debit)];
      }
      assert lines[..|lines|] == lines;
      entries := entries + [Posted(Reversal(entry, nonce), period, today, mirrored, Some(entry))];
      return Success(|entries| - 1);
    }
  }

  // ---- runs ----

  datatype Action = PostIt(setting: Setting, command: Command) | ReverseIt(setting: Setting, entry: nat, today: Day, nonce: nat)

  /** A refused action leaves the ledger as it was; periods and accounts may change from one action to the next. */
  function After(entries: seq<Posted>, a: Action): seq<Posted>
  {
    var r := match a
      case PostIt(s, c) => Post(s, entries, c)
      case ReverseIt(s, entry, today, nonce) => Reverse(s, entries, entry, today, nonce);
    if r.Success? then r.value.0 else entries
  }

  function Run(actions: seq<Action>): seq<Posted>
  {
    if actions == [] then [] else After(Run(actions[..|actions| - 1]), actions[|actions| - 1])
  }

  function LedgerOf(entries: seq<Posted>): Ledger
  {
    seq(|entries|, i requires 0 <= i < |entries| => Entry(entries[i].date, entries[i].lines))
  }

  predicate Kept(entries: seq<Posted>)
  {
    && (forall i :: 0 <= i < |entries| ==> ValidShape(entries[i].lines))
    && (forall i, j :: 0 <= i < j < |entries| ==> entries[i].key != entries[j].key)
    && (forall i :: 0 <= i < |entries| ==> Mirrors(entries, i))
  }

  predicate Mirrors(entries: seq<Posted>, i: nat)
    requires i < |entries|
  {
    var original := entries[i].reversalOf;
    original.Some? ==> original.value < i && entries[i].lines == MirrorLines(entries[original.value].lines)
  }

  lemma {:induction false} AppendKept(entries: seq<Posted>, e: Posted)
    requires Kept(entries) && ValidShape(e.lines) && FindKey(entries, e.key) == |entries|
    requires e.reversalOf.Some? ==> e.reversalOf.value < |entries| && e.lines == MirrorLines(entries[e.reversalOf.value].lines)
    ensures Kept(entries + [e])
  {
    var after := entries + [e];
    forall i | 0 <= i < |after| ensures Mirrors(after, i) {
      assert i < |entries| ==> Mirrors(entries, i) && after[i] == entries[i];
    }
  }

  lemma {:induction false} AfterKept(entries: seq<Posted>, a: Action)
    requires Kept(entries)
    ensures Kept(After(entries, a))
  {
    match a
    case PostIt(s, c) =>
      if FindKey(entries, c.key) == |entries| && ValidShape(c.lines) {
        AppendKept(entries, Posted(c.key, c.period, c.date, c.lines, None));
      }
    case ReverseIt(s, entry, today, nonce) =>
      if Reverse(s, entries, entry, today, nonce).Success? {
        MirrorShape(entries[entry].lines);
        AppendKept(entries, Reverse(s, entries, entry, today, nonce).value.0[|entries|]);
      }
  }

  /** Every run keeps the ledger sound, one entry a key, every reversal the mirror of an earlier entry. */
  lemma {:induction false} RunKept(actions: seq<Action>)
    ensures Kept(Run(actions)) && Sound(LedgerOf(Run(actions)))
  {
    if actions != [] {
      RunKept(actions[..|actions| - 1]);
      AfterKept(Run(actions[..|actions| - 1]), actions[|actions| - 1]);
    }
  }

  /** The action that put an entry into the ledger: a posting in an open period to accounts that could be posted to, or a
      reversal in a period open around its day. */
  predicate Put(a: Action, e: Posted)
  {
    match a
    case PostIt(s, c) => Postable(s, c) && e == Posted(c.key, c.period, c.date, c.lines, None)
    case ReverseIt(s, entry, today, nonce) =>
      && e.reversalOf == Some(entry) && e.date == today && e.key == Reversal(entry, nonce)
      && e.period < |s.periods| && s.periods[e.period].open && s.periods[e.period].from <= today <= s.periods[e.period].to
  }

  lemma {:induction false} AfterPuts(entries: seq<Posted>, a: Action)
    ensures After(entries, a) == entries
         || (|After(entries, a)| == |entries| + 1 && After(entries, a)[..|entries|] == entries && Put(a, After(entries, a)[|entries|]))
  {
    if a.PostIt? {
      PostAppends(a.setting, entries, a.command);
    }
  }

  /** Every entry of every run was put there by an action under whose setting it could be: no entry without a reversal was
      ever posted into a closed period or to a stopped or group account. */
  lemma {:induction false} EveryEntryWasPut(actions: seq<Action>, i: nat)
    requires i < |Run(actions)|
    ensures exists k :: 0 <= k < |actions| && Put(actions[k], Run(actions)[i])
  {
    var n := |actions| - 1;
    var before := Run(actions[..n]);
    AfterPuts(before, actions[n]);
    if i < |before| {
      EveryEntryWasPut(actions[..n], i);
      var k :| 0 <= k < n && Put(actions[..n][k], before[i]);
      assert Put(actions[k], Run(actions)[i]);
    } else {
      assert Put(actions[n], Run(actions)[i]);
    }
  }

  lemma {:induction false} AfterAppends(entries: seq<Posted>, a: Action)
    ensures entries <= After(entries, a)
  {
  }

  /** Nothing posted is ever changed or removed, whatever is done later. */
  lemma {:induction false} OnlyAppends(actions: seq<Action>, more: seq<Action>)
    ensures Run(actions) <= Run(actions + more)
  {
    if more == [] {
      assert actions + more == actions;
    } else {
      var n := |more| - 1;
      OnlyAppends(actions, more[..n]);
      assert (actions + more)[..|actions + more| - 1] == actions + more[..n];
      AfterAppends(Run(actions + more[..n]), more[n]);
    }
  }

  /** Once a key is posted, posting it again answers with that same entry and changes nothing - after any further
      actions, and whatever became of periods and accounts. */
  lemma {:induction false} ReplayAnswersTheSame(actions: seq<Action>, s: Setting, c: Command, more: seq<Action>, t: Setting, again: Command)
    requires Post(s, Run(actions), c).Success? && again.key == c.key && ValidShape(again.lines)
    ensures var later := Run(actions + [PostIt(s, c)] + more);
      Post(t, later, again) == Success((later, Post(s, Run(actions), c).value.1))
  {
    var posted := actions + [PostIt(s, c)];
    assert posted[..|actions|] == actions;
    OnlyAppends(posted, more);
    RunKept(posted + more);
    var later, id := Run(posted + more), Post(s, Run(actions), c).value.1;
    assert later[id].key == c.key;
    assert FindKey(later, c.key) < |later|;
  }

  /** A reversal takes the original off every account from its own date on, and nothing else. */
  lemma {:induction false} ReversalUndoes(s: Setting, entries: seq<Posted>, entry: nat, today: Day, nonce: nat, a: Account, day: Day)
    requires Reverse(s, entries, entry, today, nonce).Success?
    ensures NetUpTo(LedgerOf(Reverse(s, entries, entry, today, nonce).value.0), a, day)
         == NetUpTo(LedgerOf(entries), a, day) - if today <= day then Net(entries[entry].lines, a) else 0
  {
    var after := Reverse(s, entries, entry, today, nonce).value.0;
    var e := Entry(today, MirrorLines(entries[entry].lines));
    assert LedgerOf(after) == LedgerOf(entries) + [e];
    NetUpToSnoc(LedgerOf(entries), e, a, day);
    MirrorSums(entries[entry].lines, a);
  }
}
