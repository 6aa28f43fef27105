/** The next free account code under a parent. */
module AccountCode {
  import opened Wrappers
  import opened Digits

  datatype Coded = Coded(id: nat, code: string, parent: Option<nat>)

  /** byId: the last account listed under an id. */
  function ById(accounts: seq<Coded>, id: nat): (r: Option<Coded>)
    ensures r.Some? ==> r.value in accounts && r.value.id == id
    ensures r.None? ==> forall a :: a in accounts ==> a.id != id
  {
    if accounts == [] then None
    else if accounts[|accounts| - 1].id == id then Some(accounts[|accounts| - 1])
    else ById(accounts[..|accounts| - 1], id)
  }

  function Ids(accounts: seq<Coded>): set<nat>
  {
    set a | a in accounts :: a.id
  }

  /** One above the parent's level; an unknown parent, or one met before, ends the climb. */
  function Level(accounts: seq<Coded>, current: Coded, seen: set<nat>): nat
    decreases Ids(accounts) - seen
  {
    if current.parent.None? then 1
    else
      var parent := ById(accounts, current.parent.value);
      if parent.None? || parent.value.id in seen then 1
      else
        assert parent.value.id in Ids(accounts) - seen && parent.value.id !in Ids(accounts) - (seen + {parent.value.id});
        1 + Level(accounts, parent.value, seen + {parent.value.id})
  }

  function SuffixWidth(parentLevel: nat): nat { if parentLevel <= 1 then 1 else if parentLevel == 2 then 3 else 2 }
  function FirstSuffix(parentLevel: nat): nat { if parentLevel == 2 then 101 else 1 }

  /** The number a sibling's code carries on from the parent's, if it is one of the right width. */
  function SuffixOf(a: Coded, parent: Coded, width: nat): Option<nat>
  {
    if a.parent == Some(parent.id) && parent.code <= a.code && |a.code| == |parent.code| + width && AllDigits(a.code[|parent.code|..])
    then Some(Numeral(a.code[|parent.code|..]))
    else None
  }

  function Highest(accounts: seq<Coded>, parent: Coded, width: nat): nat
  {
    if accounts == [] then 0
    else
      var before := Highest(accounts[..|accounts| - 1], parent, width);
      match SuffixOf(accounts[|accounts| - 1], parent, width)
      case Some(n) => if before < n then n else before
      case None => before
  }

  predicate Taken(accounts: seq<Coded>, code: string)
  {
    exists i :: 0 <= i < |accounts| && accounts[i].code == code
  }

  function CodeFor(parent: Coded, n: nat, width: nat): string { parent.code + PadStart(Show(n), width) }

  /** The first free code from a number up, below the limit. */
  function FreeFrom(accounts: seq<Coded>, parent: Coded, width: nat, n: nat): Option<string>
    decreases Pow10(width) - n
  {
    if Pow10(width) <= n then None
    else if !Taken(accounts, CodeFor(parent, n, width)) then Some(CodeFor(parent, n, width))
    else FreeFrom(accounts, parent, width, n + 1)
  }

  function WidthUnder(accounts: seq<Coded>, parent: Coded): nat { SuffixWidth(Level(accounts, parent, {parent.id})) }

  function StartUnder(accounts: seq<Coded>, parent: Coded): nat
  {
    var highest := Highest(accounts, parent, WidthUnder(accounts, parent));
    if highest == 0 then FirstSuffix(Level(accounts, parent, {parent.id})) else highest + 1
  }

  function SuggestNext(accounts: seq<Coded>, parentId: nat): Option<string>
  {
    match ById(accounts, parentId)
    case None => None
    case Some(parent) => FreeFrom(accounts, parent, WidthUnder(accounts, parent), StartUnder(accounts, parent))
  }

  // ---- what the suggestion is ----

  lemma {:induction false} HighestIsAbove(accounts: seq<Coded>, parent: Coded, width: nat)
    ensures forall i :: 0 <= i < |accounts| ==>
      var n := SuffixOf(accounts[i], parent, width); n.Some? ==> n.value <= Highest(accounts, parent, width)
  {
    if accounts != [] {
      var last := |accounts| - 1;
      HighestIsAbove(accounts[..last], parent, width);
      assert forall i :: 0 <= i < last ==> accounts[..last][i] == accounts[i];
    }
  }

  predicate AllTaken(accounts: seq<Coded>, parent: Coded, width: nat, from: nat, to: nat)
  {
    forall j: nat :: from <= j < to ==> Taken(accounts, CodeFor(parent, j, width))
  }

  lemma {:induction false} FreeFromFinds(accounts: seq<Coded>, parent: Coded, width: nat, n: nat) returns (k: nat)
    ensures var r := FreeFrom(accounts, parent, width, n);
      && n <= k
      && AllTaken(accounts, parent, width, n, k)
      && (if r.Some? then k < Pow10(width) && r.value == CodeFor(parent, k, width) && !Taken(accounts, r.value) else Pow10(width) <= k)
    decreases Pow10(width) - n
  {
    k := n;
    if n < Pow10(width) && Taken(accounts, CodeFor(parent, n, width)) {
      k := FreeFromFinds(accounts, parent, width, n + 1);
      OneMoreTaken(accounts, parent, width, n, k);
    }
  }

  lemma {:induction false} OneMoreTaken(accounts: seq<Coded>, parent: Coded, width: nat, n: nat, k: nat)
    requires Taken(accounts, CodeFor(parent, n, width)) && AllTaken(accounts, parent, width, n + 1, k)
    ensures AllTaken(accounts, parent, width, n, k)
  {
    forall j: nat | n <= j < k ensures Taken(accounts, CodeFor(parent, j, width)) {
      assert j == n || n + 1 <= j;
    }
  }

  /** A number below the limit fills the width exactly. */
  lemma {:induction false} FillsWidth(n: nat, width: nat)
    requires 0 < width && n < Pow10(width)
    ensures |PadStart(Show(n), width)| == width && AllDigits(PadStart(Show(n), width)) && Numeral(PadStart(Show(n), width)) == n
  {
    NumeralShow(n);
    NumeralPadStart(Show(n), width);
    if |Show(n)| > width {
      PowGrows(width, |Show(n)| - 1);
      NumeralAtLeast(Show(n));
    }
  }

  /** What a suggested code is: free, the parent's code and a number of the level's width, above every numeric
      sibling, with nothing free in between. */
  ghost predicate Suggested(accounts: seq<Coded>, parent: Coded, code: string)
  {
    var width := WidthUnder(accounts, parent);
    && !Taken(accounts, code)
    && |code| == |parent.code| + width && parent.code <= code && AllDigits(code[|parent.code|..])
    && var k := Numeral(code[|parent.code|..]);
      && StartUnder(accounts, parent) <= k < Pow10(width)
      && (forall i :: 0 <= i < |accounts| ==> var n := SuffixOf(accounts[i], parent, width); n.Some? ==> n.value < k)
      && AllTaken(accounts, parent, width, StartUnder(accounts, parent), k)
  }

  lemma {:induction false} CodeIsSuggested(accounts: seq<Coded>, parent: Coded, k: nat)
    requires var width := WidthUnder(accounts, parent);
      && StartUnder(accounts, parent) <= k < Pow10(width) && !Taken(accounts, CodeFor(parent, k, width))
      && AllTaken(accounts, parent, width, StartUnder(accounts, parent), k)
    ensures Suggested(accounts, parent, CodeFor(parent, k, WidthUnder(accounts, parent)))
  {
    var width := WidthUnder(accounts, parent);
    FillsWidth(k, width);
    HighestIsAbove(accounts, parent, width);
    var code := CodeFor(parent, k, width);
    assert code[|parent.code|..] == PadStart(Show(k), width);
  }

  predicate NoneLeft(accounts: seq<Coded>, parent: Coded)
  {
    AllTaken(accounts, parent, WidthUnder(accounts, parent), StartUnder(accounts, parent), Pow10(WidthUnder(accounts, parent)))
  }

  /** There is a suggestion unless the parent is unknown or every number left to it is taken. */
  lemma {:induction false} SuggestionHolds(accounts: seq<Coded>, parentId: nat)
    ensures var parent, r := ById(accounts, parentId), SuggestNext(accounts, parentId);
      && (r.Some? ==> parent.Some? && Suggested(accounts, parent.value, r.value))
      && (r.None? <==> parent.None? || NoneLeft(accounts, parent.value))
  {
    var parent := ById(accounts, parentId);
    if parent.Some? {
      var width, start := WidthUnder(accounts, parent.value), StartUnder(accounts, parent.value);
      var k := FreeFromFinds(accounts, parent.value, width, start);
      if k < Pow10(width) {
        CodeIsSuggested(accounts, parent.value, k);
      }
    }
  }

  lemma {:induction false} NoSuffixes(accounts: seq<Coded>, parent: Coded, width: nat)
    requires forall a :: a in accounts ==> a.parent != Some(parent.id)
    ensures Highest(accounts, parent, width) == 0
  {
    if accounts != [] {
      var n := |accounts| - 1;
      assert accounts[n] in accounts;
      NoSuffixes(accounts[..n], parent, width);
    }
  }

  lemma {:induction false} FirstNumbers()
    ensures PadStart(Show(1), 1) == "1" && PadStart(Show(101), 3) == "101" && PadStart(Show(1), 2) == "01"
    ensures 1 < Pow10(1) && 101 < Pow10(3) && 1 < Pow10(2)
  {
    assert Show(101) == Show(10) + "1" && Show(10) == Show(1) + "0";
    assert Pow10(3) == 10 * Pow10(2) && Pow10(2) == 10 * Pow10(1) && Pow10(1) == 10 * Pow10(0);
    assert PadStart(Show(1), 2) == Zeros(1) + "1";
  }

  /** The first account under a group: 1 more digit under a top group, 101 under a group of the second level, 01 deeper - as
      long as that code is free. */
  lemma {:induction false} FirstChildCode(accounts: seq<Coded>, parent: Coded)
    requires ById(accounts, parent.id) == Some(parent) && forall a :: a in accounts ==> a.parent != Some(parent.id)
    ensures parent.parent.None? && !Taken(accounts, parent.code + "1") ==> SuggestNext(accounts, parent.id) == Some(parent.code + "1")
    ensures parent.parent.Some? ==>
      var above := ById(accounts, parent.parent.value);
      above.Some? && above.value.id != parent.id ==>
        && (above.value.parent.None? && !Taken(accounts, parent.code + "101") ==> SuggestNext(accounts, parent.id) == Some(parent.code + "101"))
        && (above.value.parent.Some? ==>
              var top := ById(accounts, above.value.parent.value);
              top.Some? && top.value.id !in {parent.id, above.value.id} && !Taken(accounts, parent.code + "01") ==>
                SuggestNext(accounts, parent.id) == Some(parent.code + "01"))
  {
    NoSuffixes(accounts, parent, WidthUnder(accounts, parent));
    FirstNumbers();
    if parent.parent.Some? {
      var above := ById(accounts, parent.parent.value);
      if above.Some? && above.value.id != parent.id {
        var seen := {parent.id, above.value.id};
        assert Level(accounts, parent, {parent.id}) == 1 + Level(accounts, above.value, seen) by {
          assert {parent.id} + {above.value.id} == seen;
        }
        SuggestsAt(accounts, parent);
      }
    }
  }

  lemma {:induction false} SuggestsAt(accounts: seq<Coded>, parent: Coded)
    requires ById(accounts, parent.id) == Some(parent) && Highest(accounts, parent, WidthUnder(accounts, parent)) == 0
    ensures var level := Level(accounts, parent, {parent.id});
      && (level == 2 && !Taken(accounts, parent.code + "101") ==> SuggestNext(accounts, parent.id) == Some(parent.code + "101"))
      && (2 < level && !Taken(accounts, parent.code + "01") ==> SuggestNext(accounts, parent.id) == Some(parent.code + "01"))
  {
    FirstNumbers();
  }

  // ---- the code ----

  method LevelOf(accounts: seq<Coded>, account: Coded) returns (level: nat)
    ensures level == Level(accounts, account, {account.id})
  {
    level := 1;
    var current, seen := account, {account.id};
    while current.parent.Some?
      invariant level - 1 + Level(accounts, current, seen) == Level(accounts, account, {account.id})
      decreases Ids(accounts) - seen
    {
      var parent := ById(accounts, current.parent.value);
      if parent.None? || parent.value.id in seen {
        break;
      }
      assert parent.value.id in Ids(accounts) - seen && parent.value.id !in Ids(accounts) - (seen + {parent.value.id});
      seen := seen + {parent.value.id};
      current := parent.value;
      level := level + 1;
    }
  }

  method HighestSuffix(accounts: seq<Coded>, parent: Coded, width: nat) returns (highest: nat)
    ensures highest == Highest(accounts, parent, width)
  {
    highest := 0;
    for i := 0 to |accounts|
      invariant highest == Highest(accounts[..i], parent, width)
    {
      assert accounts[..i + 1][..i] == accounts[..i];
      var child := accounts[i];
      if child.parent != Some(parent.id) || !(parent.code <= child.code) {
        continue;
      }
      var suffix := child.code[|parent.code|..];
      if |suffix| == width && AllDigits(suffix) {
        highest := if highest < Numeral(suffix) then Numeral(suffix) else highest;
      }
    }
    assert accounts[..|accounts|] == accounts;
  }

  method SuggestNextChildCode(accounts: seq<Coded>, parentId: nat) returns (r: Option<string>)
    ensures r == SuggestNext(accounts, parentId)
  {
    var found := ById(accounts, parentId);
    if found.None? {
      return None;
    }
    var parent := found.value;
    var parentLevel := LevelOf(accounts, parent);
    var width := SuffixWidth(parentLevel);
    var highest := HighestSuffix(accounts, parent, width);
    r := FirstFree(accounts, parent, width, if highest == 0 then FirstSuffix(parentLevel) else highest + 1);
  }

  method FirstFree(accounts: seq<Coded>, parent: Coded, width: nat, start: nat) returns (r: Option<string>)
    ensures r == FreeFrom(accounts, parent, width, start)
  {
    var limit: int := Pow10(width);
    var next := start;
    while next < limit
      invariant FreeFrom(accounts, parent, width, next) == FreeFrom(accounts, parent, width, start)
      decreases limit - next
    {
      var code := parent.code + PadStart(Show(next), width);
      if !Taken(accounts, code) {
        return Some(code);
      }
      next := next + 1;
    }
    return None;
  }
}
