/** Weighted-average valuation of one stock row: only a quantity and a value are kept. */
module WeightedAverage {
  import opened Rounding
  import opened Wrappers

  datatype StockState = StockState(quantity: nat, value: nat)

  const EMPTY_ROW := StockState(0, 0)

  datatype StockError = BadQuantity | BadCost | InsufficientStock

  /** What the average cost of a row gives: quantity x average, and the average itself, each rounded to the column's
      scale. A quotient held to some twenty digits is not exact, so every result that does not depend on the digits
      is stated for an arbitrary one. */
  datatype Averaging = Averaging(share: (StockState, nat) -> nat, cost: StockState -> nat)

  /** An exact average. */
  const EXACT := Averaging(ExactShare, ExactCost)

  /** The share an exact average gives: quantity x (value / on hand), rounded. Nothing on hand has average 0. */
  function ExactShare(s: StockState, quantity: nat): nat
  {
    if s.quantity == 0 then 0 else RoundDiv(quantity * s.value, s.quantity)
  }

  function ExactCost(s: StockState): nat
  {
    if s.quantity == 0 then 0 else RoundDiv(s.value * SCALE, s.quantity)
  }

  function ApplyReceipt(s: StockState, quantity: int, unitCost: int): Result<StockState, StockError>
  {
    if quantity <= 0 then Failure(BadQuantity)
    else if unitCost < 0 then Failure(BadCost)
    else Success(StockState(s.quantity + quantity, s.value + ValueOf(quantity, unitCost)))
  }

  datatype Issue = Issue(state: StockState, unitCost: nat, value: nat)

  function ApplyIssue(average: Averaging, s: StockState, quantity: int): Result<Issue, StockError>
  {
    if quantity <= 0 then Failure(BadQuantity)
    else if s.quantity < quantity then Failure(InsufficientStock)
    else
      var remaining := s.quantity - quantity;
      var share := average.share(s, quantity);
      var issued := if remaining == 0 then s.value else if share < s.value then share else s.value;
      var left := if s.value - issued < 0 then 0 else s.value - issued;
      Success(Issue(StockState(remaining, left), RoundDiv(issued * SCALE, quantity), issued))
  }

  datatype CountAdjustment = CountAdjustment(state: StockState, variance: int, varianceValue: int)

  function ApplyCountAdjustment(s: StockState, counted: int, unitCost: int): Result<CountAdjustment, StockError>
  {
    if counted < 0 then Failure(BadQuantity)
    else if unitCost < 0 then Failure(BadCost)
    else
      var variance := counted - s.quantity;
      var varianceValue := RoundDiv(variance * unitCost, SCALE);
      var value := if s.value + varianceValue < 0 then 0 else s.value + varianceValue;
      Success(CountAdjustment(StockState(counted, value), variance, varianceValue))
  }

  /** Whatever the average rounds to, an issue splits the row: nothing is created or lost, and emptying
      the row takes all of its value. */
  lemma {:induction false} IssueConserves(average: Averaging, s: StockState, quantity: int)
    ensures ApplyIssue(average, s, quantity).Success? <==> 0 < quantity <= s.quantity
    ensures var r := ApplyIssue(average, s, quantity); r.Success? ==>
      && 0 <= r.value.value <= s.value
      && r.value.value + r.value.state.value == s.value
      && quantity + r.value.state.quantity == s.quantity
      && (r.value.state.quantity == 0 ==> r.value.state.value == 0)
      && Nearest(r.value.value * SCALE, quantity, r.value.unitCost)
  {
  }

  /** With an exact average neither clamp binds: the issued value is the rounded proportional share,
      within half a ten-thousandth of it, even when the row is emptied. */
  lemma {:induction false} ClampsNeverBind(s: StockState, quantity: int)
    requires 0 < quantity <= s.quantity
    ensures ExactShare(s, quantity) <= s.value
    ensures ApplyIssue(EXACT, s, quantity).value.value == ExactShare(s, quantity)
    ensures Nearest(quantity * s.value, s.quantity, ApplyIssue(EXACT, s, quantity).value.value)
  {
    RoundDivExact(s.value, s.quantity);
    ScaleUp(quantity, s.quantity, s.value);
    RoundDivMonotone(quantity * s.value, s.value * s.quantity, s.quantity);
    RoundDivUnique(quantity * s.value, s.quantity, ExactShare(s, quantity));
    if quantity == s.quantity {
      assert quantity * s.value == s.value * s.quantity;
    }
  }

  lemma {:induction false} ScaleUp(a: int, b: int, c: nat)
    requires a <= b
    ensures a * c <= c * b
  {
  }

  /** The value the zero floor of a count adds to the row beyond the variance it reports. */
  function FloorAdded(s: StockState, counted: nat, unitCost: nat): nat
  {
    var v := s.value + RoundDiv((counted - s.quantity) * unitCost, SCALE);
    if v < 0 then -v else 0
  }

  /** A count moves the row by the variance value plus what the floor adds. The floor binds exactly when
      the shortage, at the counted line's cost, is worth more than the whole row. */
  lemma {:induction false} CountMoves(s: StockState, counted: nat, unitCost: nat)
    ensures ApplyCountAdjustment(s, counted, unitCost).Success?
    ensures var r := ApplyCountAdjustment(s, counted, unitCost).value;
      && r.state.quantity == s.quantity + r.variance == counted
      && r.state.value == s.value + r.varianceValue + FloorAdded(s, counted, unitCost)
    ensures ApplyCountAdjustment(s, counted, unitCost).value.varianceValue
         == if s.quantity <= counted then ValueOf(counted - s.quantity, unitCost) else 0 - ValueOf(s.quantity - counted, unitCost)
    ensures 0 < FloorAdded(s, counted, unitCost) <==>
      counted < s.quantity && s.value < ValueOf(s.quantity - counted, unitCost)
  {
    var short := s.quantity - counted;
    assert (counted - s.quantity) * unitCost == -(short * unitCost);
    RoundDivNegates(short * unitCost, SCALE);
  }

  /** A count leaves value on an empty row exactly when nothing was counted and the line's cost undervalues
      what the books held. */
  lemma {:induction false} CountStrandsValue(s: StockState, counted: nat, unitCost: nat)
    ensures var r := ApplyCountAdjustment(s, counted, unitCost).value.state;
      r.quantity == 0 && 0 < r.value <==> counted == 0 && ValueOf(s.quantity, unitCost) < s.value
  {
    CountMoves(s, counted, unitCost);
    var short := s.quantity - counted;
    assert (counted - s.quantity) * unitCost == -(short * unitCost);
    RoundDivNegates(short * unitCost, SCALE);
  }

  // ---- the average over a history of receipts and issues ----

  datatype Movement = In(quantity: nat, unitCost: nat) | Out(quantity: nat)

  /** A row with the number of rounded steps, and the cheapest and dearest receipt, since it was last empty. */
  datatype Row = Row(state: StockState, rounded: nat, low: nat, high: nat)

  function Move(r: Row, m: Movement): Row
  {
    match m
    case In(quantity, unitCost) =>
      var s := ApplyReceipt(r.state, quantity, unitCost);
      if s.Failure? then r
      else if r.state.quantity == 0 then Row(s.value, r.rounded + 1, unitCost, unitCost)
      else Row(s.value, r.rounded + 1,
               if unitCost < r.low then unitCost else r.low,
               if r.high < unitCost then unitCost else r.high)
    case Out(quantity) =>
      var s := ApplyIssue(EXACT, r.state, quantity);
      if s.Failure? then r
      else if s.value.state.quantity == 0 then Row(s.value.state, 0, 0, 0)
      else r.(state := s.value.state, rounded := r.rounded + 1)
  }

  function History(moves: seq<Movement>): Row
  {
    if moves == [] then Row(EMPTY_ROW, 0, 0, 0)
    else Move(History(moves[..|moves| - 1]), moves[|moves| - 1])
  }

  /** value >= low x quantity - k / 2, in ten-thousandths. */
  predicate Above(low: int, quantity: int, value: int, k: nat)
  {
    2 * (low * quantity) - SCALE * k <= 2 * SCALE * value
  }

  /** value <= high x quantity + k / 2, in ten-thousandths. */
  predicate Below(high: int, quantity: int, value: int, k: nat)
  {
    2 * SCALE * value <= 2 * (high * quantity) + SCALE * k
  }

  lemma {:induction false} BelowIsAboveNegated(high: int, quantity: int, value: int, k: nat)
    ensures Below(high, quantity, value, k) <==> Above(-high, quantity, -value, k)
  {
    assert -high * quantity == -(high * quantity);
  }

  /** value lies between low x quantity and high x quantity, give or take half a unit per rounded step. */
  predicate Honest(r: Row)
  {
    && Above(r.low, r.state.quantity, r.state.value, r.rounded)
    && Below(r.high, r.state.quantity, r.state.value, r.rounded)
    && (r.state.quantity == 0 ==> r.state.value == 0 && r.rounded == 0)
  }

  lemma {:induction false} ReceiptKeepsHonest(r: Row, quantity: nat, unitCost: nat)
    requires Honest(r)
    ensures Honest(Move(r, In(quantity, unitCost)))
  {
    if quantity > 0 {
      var n := Move(r, In(quantity, unitCost));
      var q: nat, v: int, added: int := r.state.quantity, r.state.value, ValueOf(quantity, unitCost);
      assert n.state == StockState(q + quantity, v + added);
      ReceiptAbove(n.low, r.low, unitCost, q, v, r.rounded, quantity, added);
      BelowIsAboveNegated(r.high, q, v, r.rounded);
      assert (0 - unitCost) * quantity == -(unitCost * quantity);
      ReceiptAbove(0 - n.high, 0 - r.high, 0 - unitCost, q, 0 - v, r.rounded, quantity, 0 - added);
      BelowIsAboveNegated(n.high, q + quantity, v + added, r.rounded + 1);
    }
  }

  /** A bound under both the row and the receipt is a bound under the blend, one rounding later. */
  lemma {:induction false} ReceiptAbove(low: int, a: int, b: int, q: nat, v: int, k: nat, p: nat, added: int)
    requires Above(a, q, v, k)
    requires low <= b && (q == 0 || low <= a)
    requires -SCALE <= 2 * (SCALE * added - b * p)
    ensures Above(low, q + p, v + added, k + 1)
  {
    assert low * (q + p) == low * q + low * p;
    ScaleUp(low, b, p);
    if q > 0 {
      ScaleUp(low, a, q);
    }
    assert low * q <= a * q;
  }

  lemma {:induction false} IssueKeepsHonest(r: Row, quantity: nat)
    requires Honest(r)
    ensures Honest(Move(r, Out(quantity)))
  {
    var s := r.state;
    if 0 < quantity < s.quantity {
      ClampsNeverBind(s, quantity);
      var share := ExactShare(s, quantity);
      RowAfterIssue(r, quantity);
      IssueKeepsBounds(r.low, r.high, s.quantity, s.value, r.rounded, quantity, share);
    }
  }

  lemma {:induction false} RowAfterIssue(r: Row, quantity: nat)
    requires 0 < quantity < r.state.quantity
    ensures ExactShare(r.state, quantity) <= r.state.value
    ensures Move(r, Out(quantity)) ==
      Row(StockState(r.state.quantity - quantity, r.state.value - ExactShare(r.state, quantity)), r.rounded + 1, r.low, r.high)
  {
    ClampsNeverBind(r.state, quantity);
  }

  lemma {:induction false} IssueKeepsBounds(low: int, high: int, on: int, value: int, k: nat, q: int, share: int)
    requires Above(low, on, value, k) && Below(high, on, value, k)
    requires 0 < q < on && 0 <= q * value && Nearest(q * value, on, share)
    ensures Above(low, on - q, value - share, k + 1) && Below(high, on - q, value - share, k + 1)
  {
    var left, kept := on - q, value - share;
    KeepsShare(value, on, q, share);
    IssueAbove(low, on, value, k, left, kept);
    BelowIsAboveNegated(high, on, value, k);
    assert left * -value == -(left * value) && on * -kept == -(on * kept);
    IssueAbove(-high, on, -value, k, left, -kept);
    BelowIsAboveNegated(high, left, kept, k + 1);
  }

  /** What stays behind is the proportional value, within half a unit. */
  lemma {:induction false} KeepsShare(value: int, on: int, q: int, share: int)
    requires 0 < q < on && 0 <= q * value && Nearest(q * value, on, share)
    ensures -on <= 2 * (on * (value - share) - (on - q) * value) <= on
  {
    assert on * (value - share) == on * value - on * share;
    assert (on - q) * value == on * value - q * value;
  }

  /** A lower bound on the row is, after a proportional issue, a lower bound on what is left. */
  lemma {:induction false} IssueAbove(low: int, on: int, value: int, k: nat, left: int, kept: int)
    requires 0 < left < on
    requires Above(low, on, value, k)
    requires -on <= 2 * (on * kept - left * value)
    ensures Above(low, left, kept, k + 1)
  {
    var lhs, rhs := 2 * (low * left) - SCALE * (k + 1), 2 * SCALE * kept;
    ScaleUp(2 * (low * on) - SCALE * k, 2 * SCALE * value, left);
    ScaleUp(left, on, k);
    Expand(low, on, value, k, left, kept);
    CancelFactor(on, lhs, rhs);
  }

  /** The products IssueAbove compares, multiplied out. */
  lemma {:induction false} Expand(low: int, on: int, value: int, k: nat, left: int, kept: int)
    ensures (2 * (low * on) - SCALE * k) * left == 2 * (on * (low * left)) - SCALE * (left * k)
    ensures left * (2 * SCALE * value) == 2 * SCALE * (left * value)
    ensures on * (2 * (low * left) - SCALE * (k + 1)) == 2 * (on * (low * left)) - SCALE * (k * on) - SCALE * on
    ensures on * (2 * SCALE * kept) == 2 * SCALE * (on * kept)
  {
    assert (low * on) * left == on * (low * left);
  }

  lemma {:induction false} CancelFactor(d: nat, a: int, b: int)
    requires 0 < d && d * a <= d * b
    ensures a <= b
  {
    if b < a {
      MulGap(d, b, a);
    }
  }

  /** Over every history the average stays between the cheapest and the dearest receipt it is made of,
      up to half a ten-thousandth of value per rounded step since the row was last empty. */
  lemma {:induction false} AverageStaysHonest(moves: seq<Movement>)
    ensures Honest(History(moves))
  {
    if moves != [] {
      var r, m := History(moves[..|moves| - 1]), moves[|moves| - 1];
      AverageStaysHonest(moves[..|moves| - 1]);
      match m
      case In(quantity, unitCost) => ReceiptKeepsHonest(r, quantity, unitCost);
      case Out(quantity) => IssueKeepsHonest(r, quantity);
    }
  }
}
