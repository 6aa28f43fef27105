/** rollUpBalances: a memoised recursion over the account tree, and the plain sum over descendants it refines. */
module RollUp {
  import opened Wrappers

  datatype Node = Node(id: nat, parent: Option<nat>)

  datatype Totals = Totals(debit: int, credit: int)

  /** What each account was posted itself; accounts without postings are absent. */
  type Own = map<nat, Totals>

  function Debits(own: Own): nat -> int { (id: nat) => if id in own then own[id].debit else 0 }
  function Credits(own: Own): nat -> int { (id: nat) => if id in own then own[id].credit else 0 }

  function Known(accounts: seq<Node>): set<nat>
  {
    set i | 0 <= i < |accounts| :: accounts[i].id
  }

  /** An unknown parent, or the account itself, counts as none. */
  function Link(known: set<nat>, n: Node): Option<nat>
  {
    if n.parent.Some? && n.parent.value != n.id && n.parent.value in known then n.parent else None
  }

  function Kids(known: set<nat>, accounts: seq<Node>, id: nat): seq<nat>
  {
    if accounts == [] then []
    else
      var n := accounts[|accounts| - 1];
      Kids(known, accounts[..|accounts| - 1], id) + if Link(known, n) == Some(id) then [n.id] else []
  }

  predicate Distinct(accounts: seq<Node>)
  {
    forall i, j :: 0 <= i < j < |accounts| ==> accounts[i].id != accounts[j].id
  }

  lemma {:induction false} KidsKnown(known: set<nat>, accounts: seq<Node>, id: nat)
    ensures forall c :: c in Kids(known, accounts, id) ==> exists i :: 0 <= i < |accounts| && accounts[i].id == c && Link(known, accounts[i]) == Some(id)
  {
    if accounts != [] {
      var before, n := accounts[..|accounts| - 1], |accounts| - 1;
      KidsKnown(known, before, id);
      forall c | c in Kids(known, accounts, id)
        ensures exists i :: 0 <= i < |accounts| && accounts[i].id == c && Link(known, accounts[i]) == Some(id)
      {
        if c in Kids(known, before, id) {
          var i :| 0 <= i < n && before[i].id == c && Link(known, before[i]) == Some(id);
          assert accounts[i] == before[i];
        } else {
          assert accounts[n].id == c;
        }
      }
    }
  }

  // ---- the forest ----

  function Parents(known: set<nat>, accounts: seq<Node>): map<nat, nat>
  {
    if accounts == [] then map[]
    else
      var n := accounts[|accounts| - 1];
      var before := Parents(known, accounts[..|accounts| - 1]);
      if Link(known, n).Some? then before[n.id := Link(known, n).value] else before
  }

  function Lookup(parents: map<nat, nat>, a: nat): Option<nat> { if a in parents then Some(parents[a]) else None }

  lemma {:induction false} ParentsLink(known: set<nat>, accounts: seq<Node>)
    requires Distinct(accounts)
    ensures forall i :: 0 <= i < |accounts| ==> Lookup(Parents(known, accounts), accounts[i].id) == Link(known, accounts[i])
    ensures forall a :: a in Parents(known, accounts) ==> exists i :: 0 <= i < |accounts| && accounts[i].id == a
    ensures forall a :: a in Parents(known, accounts) ==> Parents(known, accounts)[a] in known
  {
    if accounts != [] {
      var n := |accounts| - 1;
      var before := accounts[..n];
      assert forall i :: 0 <= i < n ==> before[i] == accounts[i];
      ParentsLink(known, before);
      forall a | a in Parents(known, accounts) ensures exists i :: 0 <= i < |accounts| && accounts[i].id == a {
        if a in Parents(known, before) {
          var i :| 0 <= i < n && before[i].id == a;
          assert accounts[i].id == a;
        } else {
          assert accounts[n].id == a;
        }
      }
    }
  }

  /** Parent links lead to smaller depths: there are no cycles. */
  predicate Acyclic(parents: map<nat, nat>, depth: map<nat, nat>)
  {
    forall a :: a in parents ==> a in depth && parents[a] in depth && depth[parents[a]] < depth[a]
  }

  predicate Forest(accounts: seq<Node>, depth: map<nat, nat>)
  {
    Distinct(accounts) && Acyclic(Parents(Known(accounts), accounts), depth)
  }

  function DepthOf(depth: map<nat, nat>, a: nat): nat { if a in depth then depth[a] else 0 }

  /** The account itself or one of its ancestors. */
  predicate Under(parents: map<nat, nat>, depth: map<nat, nat>, a: nat, id: nat)
    decreases DepthOf(depth, a)
  {
    a == id || (a in parents && DepthOf(depth, parents[a]) < DepthOf(depth, a) && Under(parents, depth, parents[a], id))
  }

  lemma {:induction false} UnderIsDeeper(parents: map<nat, nat>, depth: map<nat, nat>, a: nat, id: nat)
    requires Under(parents, depth, a, id) && a != id
    ensures DepthOf(depth, id) < DepthOf(depth, a)
    decreases DepthOf(depth, a)
  {
    if parents[a] != id {
      UnderIsDeeper(parents, depth, parents[a], id);
    }
  }

  /** How many of the nodes listed the account is under. */
  function Times(parents: map<nat, nat>, depth: map<nat, nat>, a: nat, ids: seq<nat>): nat
  {
    if ids == [] then 0
    else Times(parents, depth, a, ids[..|ids| - 1]) + if Under(parents, depth, a, ids[|ids| - 1]) then 1 else 0
  }

  function Scaled(k: nat, v: int): int { if k == 0 then 0 else Scaled(k - 1, v) + v }

  /** Each account's own amount, taken as many times as the function says. */
  function SumTimes(accounts: seq<Node>, own: nat -> int, times: nat -> nat): int
  {
    if accounts == [] then 0
    else
      var a := accounts[|accounts| - 1].id;
      SumTimes(accounts[..|accounts| - 1], own, times) + Scaled(times(a), own(a))
  }

  function OnceUnder(parents: map<nat, nat>, depth: map<nat, nat>, id: nat): nat -> nat
  {
    (a: nat) => if Under(parents, depth, a, id) then 1 else 0
  }

  function TimesUnder(parents: map<nat, nat>, depth: map<nat, nat>, ids: seq<nat>): nat -> nat
  {
    (a: nat) => Times(parents, depth, a, ids)
  }

  function OnceAt(id: nat): nat -> nat { (a: nat) => if a == id then 1 else 0 }

  /** The plain sum over an account and all its descendants. */
  function SubtreeSum(accounts: seq<Node>, depth: map<nat, nat>, own: nat -> int, id: nat): int
  {
    SumTimes(accounts, own, OnceUnder(Parents(Known(accounts), accounts), depth, id))
  }

  function SumOver(accounts: seq<Node>, depth: map<nat, nat>, own: nat -> int, ids: seq<nat>): int
  {
    if ids == [] then 0
    else SumOver(accounts, depth, own, ids[..|ids| - 1]) + SubtreeSum(accounts, depth, own, ids[|ids| - 1])
  }

  lemma {:induction false} ScaledAdd(j: nat, k: nat, v: int)
    ensures Scaled(j + k, v) == Scaled(j, v) + Scaled(k, v)
  {
    if k > 0 {
      ScaledAdd(j, k - 1, v);
    }
  }

  lemma {:induction false} SumTimesAdd(accounts: seq<Node>, own: nat -> int, f: nat -> nat, g: nat -> nat, h: nat -> nat)
    requires forall n :: n in accounts ==> h(n.id) == f(n.id) + g(n.id)
    ensures SumTimes(accounts, own, h) == SumTimes(accounts, own, f) + SumTimes(accounts, own, g)
  {
    if accounts != [] {
      var a := accounts[|accounts| - 1].id;
      assert accounts[|accounts| - 1] in accounts;
      SumTimesAdd(accounts[..|accounts| - 1], own, f, g, h);
      ScaledAdd(f(a), g(a), own(a));
    }
  }

  lemma {:induction false} SumTimesZero(accounts: seq<Node>, own: nat -> int, f: nat -> nat)
    requires forall n :: n in accounts ==> f(n.id) == 0
    ensures SumTimes(accounts, own, f) == 0
  {
    if accounts != [] {
      assert accounts[|accounts| - 1] in accounts;
      SumTimesZero(accounts[..|accounts| - 1], own, f);
    }
  }

  lemma {:induction false} DistinctFront(accounts: seq<Node>, n: nat)
    requires Distinct(accounts) && n + 1 == |accounts|
    ensures Distinct(accounts[..n]) && forall x :: x in accounts[..n] ==> x.id != accounts[n].id
  {
  }

  lemma {:induction false} SumTimesAt(accounts: seq<Node>, own: nat -> int, id: nat, i: nat)
    requires Distinct(accounts) && i < |accounts| && accounts[i].id == id
    ensures SumTimes(accounts, own, OnceAt(id)) == own(id)
  {
    var n := |accounts| - 1;
    DistinctFront(accounts, n);
    assert Scaled(1, own(id)) == own(id);
    if i < n {
      SumTimesAt(accounts[..n], own, id, i);
      assert accounts[..n][i] in accounts[..n];
    } else {
      SumTimesZero(accounts[..n], own, OnceAt(id));
    }
  }

  /** Adding up subtrees counts each account as often as it is under one of their roots. */
  lemma {:induction false} SumsExchange(accounts: seq<Node>, depth: map<nat, nat>, own: nat -> int, ids: seq<nat>)
    ensures SumOver(accounts, depth, own, ids) == SumTimes(accounts, own, TimesUnder(Parents(Known(accounts), accounts), depth, ids))
  {
    var parents := Parents(Known(accounts), accounts);
    if ids == [] {
      SumTimesZero(accounts, own, TimesUnder(parents, depth, ids));
    } else {
      var before, last := ids[..|ids| - 1], ids[|ids| - 1];
      SumsExchange(accounts, depth, own, before);
      SumTimesAdd(accounts, own, TimesUnder(parents, depth, before), OnceUnder(parents, depth, last), TimesUnder(parents, depth, ids));
    }
  }

  /** Nothing is under a node that is deeper than it. */
  lemma {:induction false} TimesAtTop(parents: map<nat, nat>, depth: map<nat, nat>, a: nat, ids: seq<nat>)
    requires forall i :: 0 <= i < |ids| ==> ids[i] != a && DepthOf(depth, a) <= DepthOf(depth, ids[i])
    ensures Times(parents, depth, a, ids) == 0
  {
    if ids != [] {
      TimesAtTop(parents, depth, a, ids[..|ids| - 1]);
      var last := ids[|ids| - 1];
      if Under(parents, depth, a, last) {
        UnderIsDeeper(parents, depth, a, last);
      }
    }
  }

  /** An account is under a list of nodes as often as it is listed and its parent is under them. */
  lemma {:induction false} TimesClimb(parents: map<nat, nat>, depth: map<nat, nat>, a: nat, ids: seq<nat>)
    requires Acyclic(parents, depth)
    ensures Times(parents, depth, a, ids) == Listed(ids, a) + if a in parents then Times(parents, depth, parents[a], ids) else 0
  {
    if ids != [] {
      TimesClimb(parents, depth, a, ids[..|ids| - 1]);
      var last := ids[|ids| - 1];
      if a == last && a in parents && Under(parents, depth, parents[a], last) {
        if parents[a] != last {
          UnderIsDeeper(parents, depth, parents[a], last);
        }
      }
    }
  }

  function Listed(ids: seq<nat>, a: nat): nat
  {
    if ids == [] then 0 else Listed(ids[..|ids| - 1], a) + if ids[|ids| - 1] == a then 1 else 0
  }

  lemma {:induction false} ListedKids(known: set<nat>, accounts: seq<Node>, id: nat, a: nat)
    requires Distinct(accounts)
    ensures Listed(Kids(known, accounts, id), a) == if Lookup(Parents(known, accounts), a) == Some(id) then 1 else 0
  {
    if accounts != [] {
      var before, n := accounts[..|accounts| - 1], accounts[|accounts| - 1];
      ListedKids(known, before, id, a);
      ParentsLink(known, before);
      if Link(known, n) == Some(id) {
        var kids := Kids(known, accounts, id);
        assert kids[..|kids| - 1] == Kids(known, before, id);
        assert n.id !in Parents(known, before);
      } else {
        assert Kids(known, before, id) + [] == Kids(known, before, id);
        assert n.id !in Parents(known, before);
      }
    }
  }

  /** A descendant other than the account itself is under exactly one of its children. */
  lemma {:induction false} UnderOneChild(accounts: seq<Node>, depth: map<nat, nat>, id: nat, a: nat)
    requires Forest(accounts, depth)
    ensures var parents := Parents(Known(accounts), accounts);
      Times(parents, depth, a, Kids(Known(accounts), accounts, id)) == if a != id && Under(parents, depth, a, id) then 1 else 0
    decreases DepthOf(depth, a)
  {
    var known := Known(accounts);
    var parents, kids := Parents(known, accounts), Kids(known, accounts, id);
    TimesClimb(parents, depth, a, kids);
    ListedKids(known, accounts, id, a);
    if a in parents {
      UnderOneChild(accounts, depth, id, parents[a]);
      if a == id && Under(parents, depth, parents[a], id) {
        UnderIsDeeper(parents, depth, parents[a], id);
      }
    }
  }

  /** The recursion's own step: the account itself and its children's subtrees. */
  lemma {:induction false} SubtreeSplits(accounts: seq<Node>, depth: map<nat, nat>, own: nat -> int, id: nat)
    requires Forest(accounts, depth) && id in Known(accounts)
    ensures SubtreeSum(accounts, depth, own, id) == own(id) + SumOver(accounts, depth, own, Kids(Known(accounts), accounts, id))
  {
    var parents, kids := Parents(Known(accounts), accounts), Kids(Known(accounts), accounts, id);
    SumsExchange(accounts, depth, own, kids);
    SelfAndChildren(accounts, depth, id);
    SumTimesAdd(accounts, own, OnceAt(id), TimesUnder(parents, depth, kids), OnceUnder(parents, depth, id));
    var i :| 0 <= i < |accounts| && accounts[i].id == id;
    SumTimesAt(accounts, own, id, i);
  }

  lemma {:induction false} SelfAndChildren(accounts: seq<Node>, depth: map<nat, nat>, id: nat)
    requires Forest(accounts, depth)
    ensures var parents := Parents(Known(accounts), accounts);
      forall a :: OnceUnder(parents, depth, id)(a) == OnceAt(id)(a) + TimesUnder(parents, depth, Kids(Known(accounts), accounts, id))(a)
  {
    forall a: nat {
      UnderOneChild(accounts, depth, id, a);
    }
  }

  // ---- roots ----

  function Roots(known: set<nat>, accounts: seq<Node>): seq<nat>
  {
    if accounts == [] then []
    else
      var n := accounts[|accounts| - 1];
      Roots(known, accounts[..|accounts| - 1]) + if Link(known, n).None? then [n.id] else []
  }

  lemma {:induction false} ListedRoots(known: set<nat>, accounts: seq<Node>, a: nat)
    requires Distinct(accounts)
    ensures Listed(Roots(known, accounts), a)
         == if a in Known(accounts) && a !in Parents(known, accounts) then 1 else 0
  {
    if accounts != [] {
      var before, last := accounts[..|accounts| - 1], |accounts| - 1;
      var n := accounts[last];
      ListedRoots(known, before, a);
      ParentsLink(known, before);
      KnownFront(accounts, a);
      if Link(known, n).None? {
        var roots := Roots(known, accounts);
        assert roots[..|roots| - 1] == Roots(known, before);
      } else {
        assert Roots(known, before) + [] == Roots(known, before);
      }
    }
  }

  lemma {:induction false} KnownFront(accounts: seq<Node>, a: nat)
    requires Distinct(accounts) && accounts != []
    ensures var last := |accounts| - 1;
      && (a in Known(accounts) <==> a in Known(accounts[..last]) || a == accounts[last].id)
      && accounts[last].id !in Known(accounts[..last])
  {
    var last := |accounts| - 1;
    var before := accounts[..last];
    assert forall i :: 0 <= i < last ==> before[i] == accounts[i];
    assert accounts == before + [accounts[last]];
    assert Known(accounts) == Known(before) + {accounts[last].id} by {
      forall x | x in Known(before) ensures x in Known(accounts) {
        var i :| 0 <= i < last && before[i].id == x;
        assert accounts[i].id == x;
      }
      assert accounts[last].id in Known(accounts);
    }
  }

  /** Every account is under exactly one root. */
  lemma {:induction false} UnderOneRoot(accounts: seq<Node>, depth: map<nat, nat>, a: nat)
    requires Forest(accounts, depth) && a in Known(accounts)
    ensures Times(Parents(Known(accounts), accounts), depth, a, Roots(Known(accounts), accounts)) == 1
    decreases DepthOf(depth, a)
  {
    var known := Known(accounts);
    var parents, roots := Parents(known, accounts), Roots(known, accounts);
    TimesClimb(parents, depth, a, roots);
    ListedRoots(known, accounts, a);
    if a in parents {
      ParentsLink(known, accounts);
      UnderOneRoot(accounts, depth, parents[a]);
    }
  }

  function Once(): nat -> nat { (a: nat) => 1 }

  /** What the roots show adds up to what all accounts were posted. */
  lemma {:induction false} RootsAddUp(accounts: seq<Node>, depth: map<nat, nat>, own: nat -> int)
    requires Forest(accounts, depth)
    ensures SumOver(accounts, depth, own, Roots(Known(accounts), accounts)) == SumTimes(accounts, own, Once())
  {
    var parents, roots := Parents(Known(accounts), accounts), Roots(Known(accounts), accounts);
    SumsExchange(accounts, depth, own, roots);
    RootsOnce(accounts, depth);
    SumTimesSame(accounts, own, TimesUnder(parents, depth, roots), Once());
  }

  lemma {:induction false} RootsOnce(accounts: seq<Node>, depth: map<nat, nat>)
    requires Forest(accounts, depth)
    ensures forall n :: n in accounts ==>
      TimesUnder(Parents(Known(accounts), accounts), depth, Roots(Known(accounts), accounts))(n.id) == Once()(n.id)
  {
    forall n | n in accounts
      ensures TimesUnder(Parents(Known(accounts), accounts), depth, Roots(Known(accounts), accounts))(n.id) == Once()(n.id)
    {
      UnderOneRoot(accounts, depth, n.id);
    }
  }

  lemma {:induction false} SumTimesSame(accounts: seq<Node>, own: nat -> int, f: nat -> nat, g: nat -> nat)
    requires forall n :: n in accounts ==> f(n.id) == g(n.id)
    ensures SumTimes(accounts, own, f) == SumTimes(accounts, own, g)
  {
    if accounts != [] {
      assert accounts[|accounts| - 1] in accounts;
      SumTimesSame(accounts[..|accounts| - 1], own, f, g);
    }
  }

  // ---- the code ----

  datatype Side = Debit | Credit | Neither
  datatype Balance = Balance(id: nat, totals: Totals, balance: nat, side: Side)

  lemma {:induction false} KidsDeeper(accounts: seq<Node>, depth: map<nat, nat>, id: nat, c: nat)
    requires Forest(accounts, depth) && c in Kids(Known(accounts), accounts, id)
    ensures DepthOf(depth, id) < DepthOf(depth, c)
  {
    KidsKnown(Known(accounts), accounts, id);
    ParentsLink(Known(accounts), accounts);
  }

  function SumsOver(accounts: seq<Node>, depth: map<nat, nat>, own: Own, ids: seq<nat>): Totals
  {
    Totals(SumOver(accounts, depth, Debits(own), ids), SumOver(accounts, depth, Credits(own), ids))
  }

  function SubtreeTotal(accounts: seq<Node>, depth: map<nat, nat>, own: Own, id: nat): Totals
  {
    Totals(SubtreeSum(accounts, depth, Debits(own), id), SubtreeSum(accounts, depth, Credits(own), id))
  }

  /** What a child adds to the sum so far. */
  lemma {:induction false} ChildAdds(accounts: seq<Node>, depth: map<nat, nat>, own: Own, kids: seq<nat>, i: nat)
    requires i < |kids|
    ensures var child, before, after := SubtreeTotal(accounts, depth, own, kids[i]),
        SumsOver(accounts, depth, own, kids[..i]), SumsOver(accounts, depth, own, kids[..i + 1]);
      after.debit == before.debit + child.debit && after.credit == before.credit + child.credit
  {
    assert kids[..i + 1][..i] == kids[..i];
  }

  lemma {:induction false} TotalSplits(accounts: seq<Node>, depth: map<nat, nat>, own: Own, id: nat)
    requires Forest(accounts, depth) && id in Known(accounts)
    ensures var all, below := SubtreeTotal(accounts, depth, own, id), SumsOver(accounts, depth, own, Kids(Known(accounts), accounts, id));
      all.debit == Debits(own)(id) + below.debit && all.credit == Credits(own)(id) + below.credit
  {
    SubtreeSplits(accounts, depth, Debits(own), id);
    SubtreeSplits(accounts, depth, Credits(own), id);
  }

  /** An account nothing hangs under has the debits and the credits it was posted itself. */
  lemma {:induction false} LeafIsOwn(accounts: seq<Node>, depth: map<nat, nat>, own: Own, id: nat)
    requires Forest(accounts, depth) && id in Known(accounts) && forall i :: 0 <= i < |accounts| ==> accounts[i].parent != Some(id)
    ensures SubtreeTotal(accounts, depth, own, id) == if id in own then own[id] else Totals(0, 0)
  {
    var kids := Kids(Known(accounts), accounts, id);
    assert kids != [] ==> kids[0] in kids;
    KidsKnown(Known(accounts), accounts, id);
    TotalSplits(accounts, depth, own, id);
  }

  /** The path leads down to the account. */
  predicate Deeper(depth: map<nat, nat>, path: set<nat>, id: nat)
  {
    forall x :: x in path ==> DepthOf(depth, x) < DepthOf(depth, id)
  }

  /** On a forest the guard never cuts a child off. */
  lemma {:induction false} GuardIdle(accounts: seq<Node>, depth: map<nat, nat>, forest: bool, id: nat, path: set<nat>, kids: seq<nat>, i: nat)
    requires kids == Kids(Known(accounts), accounts, id) && i < |kids|
    requires forest ==> Forest(accounts, depth) && Deeper(depth, path, id)
    ensures kids[i] in Known(accounts)
    ensures forest ==> kids[i] !in path + {id} && Deeper(depth, path + {id}, kids[i])
  {
    assert kids[i] in kids;
    KidsKnown(Known(accounts), accounts, id);
    if forest {
      KidsDeeper(accounts, depth, id, kids[i]);
    }
  }

  /** forest and depth are for the proof only: whether the parent links form a forest, and depths that show it. */
  class BalanceRoller {
    const accounts: seq<Node>
    const own: Own
    ghost const depth: map<nat, nat>
    ghost const forest: bool
    var children: map<nat, seq<nat>>
    var memo: map<nat, Totals>

    constructor (accounts: seq<Node>, own: Own, ghost depth: map<nat, nat>)
      ensures this.accounts == accounts && this.own == own && this.depth == depth && forest == Forest(accounts, depth)
      ensures memo == map[] && ChildrenBuilt()
    {
      this.accounts, this.own, this.depth := accounts, own, depth;
      forest := Forest(accounts, depth);
      memo := map[];
      children := map[];
      new;
      var known := Known(accounts);
      for i := 0 to |accounts|
        invariant memo == map[]
        invariant forall id :: ChildrenOf(id) == Kids(known, accounts[..i], id)
      {
        var account := accounts[i];
        KidsSnoc(known, accounts, i);
        if account.parent.Some? && account.parent.value != account.id && account.parent.value in known {
          var siblings := if account.parent.value in children then children[account.parent.value] else [];
          children := children[account.parent.value := siblings + [account.id]];
        }
      }
      assert accounts[..|accounts|] == accounts;
    }

    function ChildrenOf(id: nat): seq<nat>
      reads this
    {
      if id in children then children[id] else []
    }

    ghost function Subtree(id: nat): Totals { SubtreeTotal(accounts, depth, own, id) }

    ghost predicate ChildrenBuilt()
      reads this
    {
      forall id :: ChildrenOf(id) == Kids(Known(accounts), accounts, id)
    }

    /** Every total remembered is the sum over its subtree. */
    ghost predicate MemoHolds()
      reads this
    {
      forest ==> forall id :: id in memo ==> memo[id] == Subtree(id)
    }

    /** The recursion ends on every graph: the path only grows, and never past the accounts there are. On a forest
        it answers with the sum over the subtree. */
    method Total(id: nat, path: set<nat>) returns (r: Totals)
      requires id in Known(accounts) && id !in path && path <= Known(accounts)
      requires ChildrenBuilt() && MemoHolds()
      requires forest ==> Forest(accounts, depth) && Deeper(depth, path, id)
      modifies this`memo
      ensures MemoHolds()
      ensures forest ==> r == Subtree(id)
      decreases Known(accounts) - path, 0
    {
      if id in memo {
        return memo[id];
      }
      assert id in Known(accounts) - path && id !in Known(accounts) - (path + {id});
      var debit, credit := AddChildren(id, path);
      if forest {
        TotalSplits(accounts, depth, own, id);
      }
      r := Totals(debit, credit);
      memo := memo[id := r];
    }

    /** The loop over the children; on a forest its cycle guard never cuts anything off. */
    method AddChildren(id: nat, path: set<nat>) returns (debit: int, credit: int)
      requires id in Known(accounts) && path <= Known(accounts)
      requires ChildrenBuilt() && MemoHolds()
      requires forest ==> Forest(accounts, depth) && Deeper(depth, path, id)
      modifies this`memo
      ensures MemoHolds()
      ensures forest ==> var below := SumsOver(accounts, depth, own, Kids(Known(accounts), accounts, id));
        debit == Debits(own)(id) + below.debit && credit == Credits(own)(id) + below.credit
      decreases Known(accounts) - (path + {id}), 1
    {
      debit := if id in own then own[id].debit else 0;
      credit := if id in own then own[id].credit else 0;
      var nextPath := path + {id};
      var kids := ChildrenOf(id);
      ghost var below := Totals(0, 0);
      for i := 0 to |kids|
        invariant ChildrenBuilt() && MemoHolds() && below == SumsOver(accounts, depth, own, kids[..i])
        invariant forest ==> debit == Debits(own)(id) + below.debit && credit == Credits(own)(id) + below.credit
      {
        GuardIdle(accounts, depth, forest, id, path, kids, i);
        ChildAdds(accounts, depth, own, kids, i);
        below := SumsOver(accounts, depth, own, kids[..i + 1]);
        if kids[i] in nextPath {
          continue;
        }
        var child := Total(kids[i], nextPath);
        debit, credit := debit + child.debit, credit + child.credit;
      }
      assert kids[..|kids|] == kids;
    }

    method RollUpBalances() returns (r: seq<Balance>)
      requires ChildrenBuilt() && memo == map[] && (forest ==> Forest(accounts, depth))
      modifies this`memo
      ensures |r| == |accounts|
      ensures forall i :: 0 <= i < |r| ==> r[i].id == accounts[i].id && BalanceHolds(r[i])
      ensures forest ==> forall i :: 0 <= i < |r| ==> r[i].totals == SubtreeTotal(accounts, depth, own, r[i].id)
    {
      r := [];
      for i := 0 to |accounts|
        invariant ChildrenBuilt() && MemoHolds() && |r| == i
        invariant forall k :: 0 <= k < i ==> r[k].id == accounts[k].id && BalanceHolds(r[k])
        invariant forest ==> forall k :: 0 <= k < i ==> r[k].totals == Subtree(r[k].id)
      {
        var totals := Total(accounts[i].id, {});
        var net := totals.debit - totals.credit;
        r := r + [Balance(accounts[i].id, totals, if net < 0 then 0 - net else net, if net > 0 then Debit else if net < 0 then Credit else Neither)];
      }
    }
  }

  /** The balance is shown on the larger side, or on neither. */
  predicate BalanceHolds(b: Balance)
  {
    match b.side
    case Debit => 0 < b.balance == b.totals.debit - b.totals.credit
    case Credit => 0 < b.balance == b.totals.credit - b.totals.debit
    case Neither => 0 == b.balance == b.totals.debit - b.totals.credit
  }

  lemma {:induction false} KidsSnoc(known: set<nat>, accounts: seq<Node>, i: nat)
    requires i < |accounts|
    ensures forall id: nat :: Kids(known, accounts[..i + 1], id) == Kids(known, accounts[..i], id) + (if Link(known, accounts[i]) == Some(id) then [accounts[i].id] else [])
  {
    assert accounts[..i + 1][..i] == accounts[..i];
  }
}
